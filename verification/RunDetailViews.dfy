/** Fan pages and whole run details, by both roads. */
module RunDetailViews {
  import opened Common
  import opened RunDetail
  import opened RunDetailStats
  import opened RunDetailStore
  import opened RunDetailTotals

  // ---- one page of a fan ---------------------------------------------------------------------

  /** A number as a caller passes it. */
  datatype Number = Finite(value: real) | NotFinite

  const FAN_PAGE_MAX: nat := 500

  /** `fanPageBounds`. */
  function FanPageBounds(offset: Option<Number>, limit: Option<Number>): (b: (nat, nat))
    ensures 1 <= b.1 <= FAN_PAGE_MAX
    ensures offset.Some? && offset.value.Finite? && offset.value.value >= 0.0 ==> b.0 == offset.value.value.Floor
    ensures limit.Some? && limit.value.Finite? && 1.0 <= limit.value.value < 501.0 ==> b.1 == limit.value.value.Floor
    ensures offset.Some? && offset.value.Finite? && offset.value.value < 0.0 ==> b.0 == 0
    ensures limit.Some? && limit.value.Finite? && limit.value.value < 1.0 ==> b.1 == 1
    ensures limit.Some? && limit.value.Finite? && limit.value.value >= 500.0 ==> b.1 == 500
    ensures (offset == None || offset.value == NotFinite ==> b.0 == 0)
            && (limit == None || limit.value == NotFinite ==> b.1 == 100)
  {
    (match offset
     case Some(Finite(x)) => if x.Floor >= 0 then x.Floor else 0
     case _ => 0,
     match limit
     case Some(Finite(x)) => if x.Floor < 1 then 1 else if x.Floor > FAN_PAGE_MAX then FAN_PAGE_MAX else x.Floor
     case _ => 100)
  }

  datatype Page = Page(items: seq<Step>, total: nat)

  function Matching(s: seq<Step>, group: string, failedOnly: bool): seq<Step> {
    if failedOnly then Filter(MembersOf(s, group), FailedMember) else MembersOf(s, group)
  }

  /** `pageFan`: a page out of the whole list. */
  function PageFan(s: seq<Step>, group: string, failedOnly: bool, offset: nat, limit: nat): Page {
    Page(Slice(Matching(s, group, failedOnly), offset, offset + limit), |Matching(s, group, failedOnly)|)
  }

  lemma MatchingIs(s: seq<Step>, group: string, failedOnly: bool)
    ensures Matching(s, group, failedOnly)
            == Filter(s, (r: Step) => r.group == Some(group) && (failedOnly ==> Fails(r)))
  {
    var mine, wanted := (r: Step) => r.group == Some(group), (r: Step) => r.group == Some(group)
      && (failedOnly ==> Fails(r));
    if failedOnly { FilterTwice(s, mine, FailedMember, wanted); } else { FilterSame(s, mine, wanted); }
  }

  /** The rows of the group, or those of it that fail, from `offset` on, at most `limit`; and how many there are. */
  ghost predicate IsPage(s: seq<Step>, group: string, failedOnly: bool, offset: nat, limit: nat, page: Page) {
    var rows := Filter(s, (r: Step) => r.group == Some(group) && (failedOnly ==> Fails(r)));
    && page.total == |rows|
    && page.items == if offset >= |rows| then [] else if offset + limit >= |rows| then rows[offset..]
                     else rows[offset..offset + limit]
  }

  lemma PageIs(s: seq<Step>, group: string, failedOnly: bool, offset: nat, limit: nat)
    ensures IsPage(s, group, failedOnly, offset, limit, PageFan(s, group, failedOnly, offset, limit))
  {
    MatchingIs(s, group, failedOnly);
  }

  function OfGroup(group: string): Query { Query(Some(group), {}, None, EVERY) }

  lemma EveryKind(k: Kind)
    ensures k in EVERY
  {
    match k
    case _ =>
  }

  lemma OfGroupIsMembers(s: seq<Step>, group: string)
    ensures QueryOf(s, OfGroup(group)) == MembersOf(s, group)
  {
    forall r | r in s ensures r.kind in EVERY { EveryKind(r.kind); }
    FilterSame(s, (r: Step) => Matches(OfGroup(group), r), (r: Step) => r.group == Some(group));
  }

  lemma {:induction false} MergeSize(a: seq<Step>, b: seq<Step>)
    ensures |MergeBySeq(a, b)| == |a| + |b|
  {
    if b != [] {
      MergeSize(a, b[..|b| - 1]);
      InsertSize(b[|b| - 1], MergeBySeq(a, b[..|b| - 1]));
    }
  }

  lemma {:induction false} InsertSize(r: Step, s: seq<Step>)
    ensures |Insert(r, s)| == |s| + 1
  {
    if s != [] && !(r.at < s[0].at) { InsertSize(r, s[1..]); }
  }

  lemma FailedCount(s: seq<Step>, group: string)
    ensures Rows(StatsOf(MembersOf(s, group)), (status: Status, kind: Kind) => status == Failed)
            == |QueryOf(s, FailedRows(group))|
  {
    var failed := (r: Step) => r.status == Failed;
    forall r | r in s ensures r.kind in EVERY { EveryKind(r.kind); }
    StatsRows(MembersOf(s, group), (status: Status, kind: Kind) => status == Failed, failed);
    FilterTwice(s, (r: Step) => r.group == Some(group), failed, (r: Step) => Matches(FailedRows(group), r));
  }

  /** The three ways a page of failures is read all give the same slice. */
  lemma FailedSlices(failed: seq<Step>, children: seq<Step>, all: seq<Step>, lo: nat, hi: nat)
    requires lo <= hi && all == MergeBySeq(failed, children) && |all| == |failed| + |children|
    requires Slice(MergeBySeq(Slice(failed, 0, hi), children), 0, hi) == Slice(all, 0, hi)
    ensures |all| <= lo ==> Slice(all, lo, hi) == []
    ensures children == [] ==> Slice(all, lo, hi) == Slice(failed, lo, hi)
    ensures Slice(all, lo, hi) == Slice(MergeBySeq(Slice(failed, 0, hi), children), lo, hi)
  {
    SliceWithin(MergeBySeq(Slice(failed, 0, hi), children), all, lo, hi);
  }

  /** A page of failed members, from the failed rows and the failed children. */
  method FailedPage(s: seq<Step>, group: string, buckets: seq<Bucket>, offset: nat, limit: nat) returns (page: Page)
    requires BySeq(s) && buckets == StatsOf(MembersOf(s, group))
    ensures page == PageFan(s, group, true, offset, limit)
  {
    var failedStatus := Rows(buckets, (status: Status, kind: Kind) => status == Failed);
    var completed := CompletedChildren(s, group, buckets);
    var children := Filter(completed, FailedMember);
    ghost var failed := QueryOf(s, FailedRows(group));
    FailedCount(s, group);
    FailuresAgree(s, group, completed, offset + limit);
    MergeSize(failed, children);
    FailedSlices(failed, children, Matching(s, group, true), offset, offset + limit);
    var total := failedStatus + |children|;
    if total <= offset {
      page := Page([], total);
    } else if children == [] {
      page := Page(Slice(QueryOf(s, FailedRows(group)), offset, offset + limit), total);
    } else {
      page := Page(Slice(MergeBySeq(Slice(QueryOf(s, FailedRows(group)), 0, offset + limit), children), offset,
          offset + limit), total);
    }
  }

  /** A page read from the store is the page of the whole list, whatever the offset and the limit. */
  method PageFanFromStore(s: seq<Step>, group: string, failedOnly: bool, offset: nat, limit: nat) returns (page: Page)
    requires BySeq(s)
    ensures page == PageFan(s, group, failedOnly, offset, limit)
    ensures IsPage(s, group, failedOnly, offset, limit, page)
  {
    PageIs(s, group, failedOnly, offset, limit);
    var all := CheckpointStats(s);
    var buckets := BucketsIn(all, group);
    GroupStats(s, group);
    if failedOnly {
      page := FailedPage(s, group, buckets, offset, limit);
    } else {
      OfGroupIsMembers(s, group);
      GroupRowsCount(s, group);
      var total := Rows(buckets, (status: Status, kind: Kind) => true);
      page := Page(if total > offset then Slice(QueryOf(s, OfGroup(group)), offset, offset + limit) else [], total);
    }
  }

  /** Equal up to `hi`, equal in any slice that ends there. */
  lemma SliceWithin(a: seq<Step>, b: seq<Step>, lo: nat, hi: nat)
    requires lo <= hi && Slice(a, 0, hi) == Slice(b, 0, hi)
    ensures Slice(a, lo, hi) == Slice(b, lo, hi)
  {
    assert Slice(a, lo, hi) == Slice(Slice(a, 0, hi), lo, hi);
    assert Slice(b, lo, hi) == Slice(Slice(b, 0, hi), lo, hi);
  }

  // ---- the children --------------------------------------------------------------------------

  /** `childIdsOf`. */
  function Edges(s: seq<Step>): seq<string> { if s == [] then [] else Edges(s[..|s| - 1]) + s[|s| - 1].edges }

  lemma EdgesOfOne(r: Step)
    ensures Edges([r]) == r.edges
  {
    assert [r][..0] == [];
    assert [] + r.edges == r.edges;
  }

  /** A set in insertion order. */
  function Dedup(ids: seq<string>): seq<string> {
    if ids == [] then []
    else
      var before := Dedup(ids[..|ids| - 1]);
      if ids[|ids| - 1] in before then before else before + [ids[|ids| - 1]]
  }

  lemma {:induction false} DedupPrefix(a: seq<string>, b: seq<string>)
    ensures Dedup(a) <= Dedup(a + b)
    decreases |b|
  {
    if b == [] {
      assert a + b == a;
    } else {
      assert (a + b)[..|a + b| - 1] == a + b[..|b| - 1];
      DedupPrefix(a, b[..|b| - 1]);
    }
  }

  lemma DedupPrefixOf(a: seq<string>, b: seq<string>, both: seq<string>)
    requires both == a + b
    ensures Dedup(a) <= Dedup(both)
  {
    DedupPrefix(a, b);
  }

  lemma {:induction false} EdgesConcat(a: seq<Step>, b: seq<Step>)
    ensures Edges(a + b) == Edges(a) + Edges(b)
    decreases |b|
  {
    if b == [] {
      assert a + b == a;
    } else {
      assert (a + b)[..|a + b| - 1] == a + b[..|b| - 1];
      EdgesConcat(a, b[..|b| - 1]);
    }
  }

  const EDGE_KINDS := {Child, Folded, Spawn}

  function EdgeRows(s: seq<Step>): seq<Step> { QueryOf(s, Query(None, {}, None, EDGE_KINDS)) }

  /** Only edge rows have edges. */
  lemma {:induction false} EdgesOfRows(s: seq<Step>)
    requires forall r | r in s :: EdgesOk(r)
    ensures Edges(EdgeRows(s)) == Edges(s)
  {
    if s != [] {
      var init, last := s[..|s| - 1], s[|s| - 1];
      assert s == init + [last] && last in s;
      EdgesOfRows(init);
      FilterSnoc(init, last, (r: Step) => Matches(Query(None, {}, None, EDGE_KINDS), r));
      if last.kind != Plain {
        assert EdgeRows(s) == EdgeRows(init) + [last];
        assert (EdgeRows(init) + [last])[..|EdgeRows(init)|] == EdgeRows(init);
      } else {
        assert Edges(init) + [] == Edges(init);
      }
    }
  }

  lemma DedupSnoc(ids: seq<string>, id: string)
    ensures Dedup(ids + [id]) == if id in Dedup(ids) then Dedup(ids) else Dedup(ids) + [id]
  {
    assert (ids + [id])[..|ids|] == ids;
  }

  lemma AllSnoc(before: seq<string>, ids: seq<string>, i: nat)
    requires i < |ids|
    ensures before + ids[..i] + [ids[i]] == before + ids[..i + 1]
  {
  }

  /** The ids of a page added to those seen. */
  method AddIds(seen: seq<string>, ghost before: seq<string>, ids: seq<string>) returns (more: seq<string>)
    requires seen == Dedup(before)
    ensures more == Dedup(before + ids)
  {
    more := seen;
    ghost var all := before;
    for i := 0 to |ids|
      invariant all == before + ids[..i] && more == Dedup(all)
    {
      DedupSnoc(all, ids[i]);
      AllSnoc(before, ids, i);
      if ids[i] !in more {
        more := more + [ids[i]];
      }
      all := all + [ids[i]];
    }
    assert ids[..|ids|] == ids;
  }

  /** The distinct ids of the first `n` rows. */
  function IdsUpTo(rows: seq<Step>, n: nat): seq<string>
    requires n <= |rows|
  {
    Dedup(Edges(rows[..n]))
  }

  lemma IdsSoFar(rows: seq<Step>, n: nat)
    requires n <= |rows|
    ensures IdsUpTo(rows, n) <= Dedup(Edges(rows))
  {
    var read, rest := rows[..n], rows[n..];
    assert rows == read + rest;
    EdgesConcat(read, rest);
    DedupPrefixOf(Edges(read), Edges(rest), Edges(rows));
  }

  /** One page more. */
  method AddPage(rows: seq<Step>, offset: nat, ids: seq<string>) returns (more: seq<string>, read: nat)
    requires offset <= |rows| && ids == IdsUpTo(rows, offset)
    ensures read == if offset + SUMMARY_CHILD_LIMIT <= |rows| then SUMMARY_CHILD_LIMIT else |rows| - offset
    ensures more == IdsUpTo(rows, offset + read)
  {
    var page := Slice(rows, offset, offset + SUMMARY_CHILD_LIMIT);
    read := |page|;
    assert rows[..offset + read] == rows[..offset] + page;
    EdgesConcat(rows[..offset], page);
    more := AddIds(ids, Edges(rows[..offset]), Edges(page));
  }

  /** `firstChildIds`: page by page until enough distinct ids are known, or every edge row is read. */
  method FirstChildIds(s: seq<Step>) returns (ids: seq<string>, complete: bool)
    requires forall r | r in s :: EdgesOk(r)
    ensures ids <= Dedup(Edges(s))
    ensures complete ==> ids == Dedup(Edges(s))
    ensures !complete ==> |ids| >= 200 && |EdgeRows(s)| >= 200
  {
    var rows := EdgeRows(s);
    EdgesOfRows(s);
    ids, complete := [], false;
    var offset := 0;
    while true
      invariant offset <= |rows| && ids == IdsUpTo(rows, offset)
      decreases |rows| - offset
    {
      var read;
      ids, read := AddPage(rows, offset, ids);
      IdsSoFar(rows, offset + read);
      if read < SUMMARY_CHILD_LIMIT {
        assert rows[..offset + read] == rows;
        return ids, true;
      }
      if |ids| >= SUMMARY_CHILD_LIMIT {
        return ids, false;
      }
      offset := offset + SUMMARY_CHILD_LIMIT;
    }
  }

  lemma {:induction false} DedupSize(ids: seq<string>)
    ensures |Dedup(ids)| <= |ids|
  {
    if ids != [] { DedupSize(ids[..|ids| - 1]); }
  }

  // ---- the fans, in order --------------------------------------------------------------------

  /** The groups of a list, in the order they first appear. */
  function GroupsOf(s: seq<Step>): seq<string> {
    if s == [] then [] else WithGroup(GroupsOf(s[..|s| - 1]), s[|s| - 1].group)
  }

  function WithGroup(gs: seq<string>, g: Option<string>): seq<string> {
    if g.Some? && g.value !in gs then gs + [g.value] else gs
  }

  /** The groups of the buckets, likewise. */
  function GroupsIn(bs: seq<Bucket>): seq<string> {
    if bs == [] then [] else WithGroup(GroupsIn(bs[..|bs| - 1]), bs[|bs| - 1].group)
  }

  lemma {:induction false} GroupsInUpdated(bs: seq<Bucket>, k: nat, b: Bucket)
    requires k < |bs| && b.group == bs[k].group
    ensures GroupsIn(bs[k := b]) == GroupsIn(bs) && (b.group.Some? ==> b.group.value in GroupsIn(bs))
  {
    var n := |bs| - 1;
    if k == n {
      assert bs[k := b][..n] == bs[..n];
    } else {
      assert bs[k := b][..n] == bs[..n][k := b];
      GroupsInUpdated(bs[..n], k, b);
    }
  }

  lemma {:induction false} StatsGroups(s: seq<Step>)
    ensures GroupsIn(StatsOf(s)) == GroupsOf(s)
  {
    if s != [] {
      var init, last := s[..|s| - 1], s[|s| - 1];
      StatsGroups(init);
      var bs := StatsOf(init);
      var k := PlaceOf(bs, last);
      if k < |bs| {
        GroupsInUpdated(bs, k, Grow(bs[k], last));
      } else {
        assert (bs + [Single(last)])[..|bs|] == bs;
      }
    }
  }

  lemma {:induction false} GroupsHaveMembers(s: seq<Step>, g: string)
    ensures g in GroupsOf(s) <==> MembersOf(s, g) != []
  {
    if s != [] {
      var init, last := s[..|s| - 1], s[|s| - 1];
      assert s == init + [last];
      GroupsHaveMembers(init, g);
      FilterSnoc(init, last, (r: Step) => r.group == Some(g));
    }
  }

  /** `isWide`. */
  predicate IsWide(gs: Groups, g: string, rows: nat, over: nat) {
    rows > over || (gs.size(g).Some? && gs.size(g).value > over)
  }

  predicate Wide(gs: Groups, s: seq<Step>, over: nat, g: string) { IsWide(gs, g, |MembersOf(s, g)|, over) }

  function WideOf(gs: Groups, s: seq<Step>, over: nat, groups: seq<string>): seq<string> {
    if groups == [] then []
    else
      WideOf(gs, s, over, groups[..|groups| - 1])
      + if Wide(gs, s, over, groups[|groups| - 1]) then [groups[|groups| - 1]] else []
  }

  lemma {:induction false} WideElements(gs: Groups, s: seq<Step>, over: nat, groups: seq<string>)
    ensures forall g :: g in WideOf(gs, s, over, groups) <==> g in groups && Wide(gs, s, over, g)
  {
    if groups != [] {
      WideElements(gs, s, over, groups[..|groups| - 1]);
      assert groups == groups[..|groups| - 1] + [groups[|groups| - 1]];
    }
  }

  function FansOf(gs: Groups, s: seq<Step>, wide: seq<string>): (fans: seq<FanSummary>)
    requires forall g | g in wide :: MembersOf(s, g) != []
    ensures |fans| == |wide| && forall i | 0 <= i < |wide| :: fans[i] == SummaryOf(gs, wide[i], MembersOf(s, wide[i]))
  {
    seq(|wide|, i requires 0 <= i < |wide| => SummaryOf(gs, wide[i], MembersOf(s, wide[i])))
  }

  /** What is left of the timeline once the wide fans are drawn as one node each. */
  function Narrow(gs: Groups, s: seq<Step>, over: nat): seq<Step> {
    Filter(s, (r: Step) => r.group == None || !Wide(gs, s, over, r.group.value))
  }

  /** The fans drawn, in the order of their first positions. */
  function WideFans(gs: Groups, s: seq<Step>, over: nat): seq<FanSummary> {
    var wide := WideOf(gs, s, over, GroupsOf(s));
    WideElements(gs, s, over, GroupsOf(s));
    assert forall g | g in wide :: MembersOf(s, g) != [] by {
      forall g | g in wide ensures MembersOf(s, g) != [] { GroupsHaveMembers(s, g); }
    }
    FansOf(gs, s, wide)
  }

  /** The first totals of members in position order are the first member's. */
  lemma {:induction false} FirstIsHead(ms: seq<Step>)
    requires BySeq(ms) && ms != []
    ensures Sum(ms, Member).first == Some(ms[0].at)
  {
    var init, last := ms[..|ms| - 1], ms[|ms| - 1];
    assert ms == init + [last];
    SumSnoc(init, last, Member);
    if init != [] { FirstIsHead(init); }
  }

  ghost predicate HeadsInOrder(s: seq<Step>, groups: seq<string>) {
    && (forall g | g in groups :: MembersOf(s, g) != [])
    && forall i, j | 0 <= i < j < |groups| :: MembersOf(s, groups[i])[0].at < MembersOf(s, groups[j])[0].at
  }

  lemma {:induction false} GroupsInOrder(s: seq<Step>)
    requires BySeq(s)
    ensures HeadsInOrder(s, GroupsOf(s))
  {
    if s != [] {
      var init, last := s[..|s| - 1], s[|s| - 1];
      assert s == init + [last];
      GroupsInOrder(init);
      forall g | g in GroupsOf(s)
        ensures MembersOf(s, g) != []
        ensures g in GroupsOf(init) ==> MembersOf(s, g)[0] == MembersOf(init, g)[0] && MembersOf(s, g)[0].at < last.at
        ensures g !in GroupsOf(init) ==> MembersOf(s, g)[0] == last
      {
        HeadGrows(init, last, g);
      }
    }
  }

  lemma HeadGrows(init: seq<Step>, last: Step, g: string)
    requires BySeq(init + [last]) && (g in GroupsOf(init) || last.group == Some(g))
    ensures MembersOf(init + [last], g) != []
    ensures g in GroupsOf(init) ==>
              MembersOf(init, g) != [] && MembersOf(init + [last], g)[0] == MembersOf(init, g)[0]
              && MembersOf(init, g)[0].at < last.at
    ensures g !in GroupsOf(init) ==> MembersOf(init + [last], g)[0] == last
  {
    GroupsHaveMembers(init, g);
    FilterSnoc(init, last, (r: Step) => r.group == Some(g));
    FilterElements(init, (r: Step) => r.group == Some(g));
    if g in GroupsOf(init) {
      var head := MembersOf(init, g)[0];
      assert head in init;
      var i :| 0 <= i < |init| && init[i] == head;
      assert (init + [last])[i] == head;
    }
  }

  lemma {:induction false} WideInOrder(gs: Groups, s: seq<Step>, over: nat, groups: seq<string>)
    requires HeadsInOrder(s, groups)
    ensures HeadsInOrder(s, WideOf(gs, s, over, groups))
  {
    if groups != [] {
      var init, last := groups[..|groups| - 1], groups[|groups| - 1];
      assert groups == init + [last];
      assert HeadsInOrder(s, init);
      WideInOrder(gs, s, over, init);
      WideElements(gs, s, over, init);
      forall g | g in WideOf(gs, s, over, init) ensures MembersOf(s, g)[0].at < MembersOf(s, last)[0].at {
        var i :| 0 <= i < |init| && init[i] == g;
        assert groups[i] == g;
      }
    }
  }

  function InsertFan(f: FanSummary, fans: seq<FanSummary>): seq<FanSummary> {
    if fans == [] || f.firstSeq == None
      || (fans[0].firstSeq.Some? && f.firstSeq.value <= fans[0].firstSeq.value) then [f] + fans
    else [fans[0]] + InsertFan(f, fans[1..])
  }

  /** `fans.sort((a, b) => a.firstSeq - b.firstSeq)`. */
  function SortFans(fans: seq<FanSummary>): seq<FanSummary> {
    if fans == [] then [] else InsertFan(fans[0], SortFans(fans[1..]))
  }

  lemma {:induction false} SortedStays(fans: seq<FanSummary>)
    requires forall i | 0 <= i < |fans| :: fans[i].firstSeq.Some?
    requires forall i, j | 0 <= i < j < |fans| :: fans[i].firstSeq.value < fans[j].firstSeq.value
    ensures SortFans(fans) == fans
  {
    if fans != [] {
      SortedStays(fans[1..]);
      assert fans == [fans[0]] + fans[1..];
    }
  }

  lemma FansSorted(gs: Groups, s: seq<Step>, over: nat)
    requires BySeq(s)
    ensures SortFans(WideFans(gs, s, over)) == WideFans(gs, s, over)
  {
    var wide, fans := WideOf(gs, s, over, GroupsOf(s)), WideFans(gs, s, over);
    GroupsInOrder(s);
    WideInOrder(gs, s, over, GroupsOf(s));
    forall i | 0 <= i < |wide| ensures fans[i].firstSeq == Some(MembersOf(s, wide[i])[0].at) {
      assert wide[i] in wide;
      FilterBySeq(s, (r: Step) => r.group == Some(wide[i]));
      FirstIsHead(MembersOf(s, wide[i]));
    }
    SortedStays(fans);
  }

  /** The group has more rows than `over`, or was declared wider. */
  predicate Broad(gs: Groups, s: seq<Step>, over: nat, g: string) {
    |MembersOf(s, g)| > over || (gs.size(g).Some? && gs.size(g).value > over)
  }

  /**
   * A timeline with its wide fans drawn: the rows of no group and of the other groups stay, in order;
   * each wide group that has rows is one node, whose summary says what its rows do; and the nodes are
   * in the order of their first rows.
   */
  ghost predicate WellDrawn(gs: Groups, s: seq<Step>, over: nat, timeline: seq<Step>, fans: seq<FanSummary>) {
    && timeline == Filter(s, (r: Step) => r.group == None || !Broad(gs, s, over, r.group.value))
    && (forall g :: (exists f :: f in fans && f.group == g) <==> MembersOf(s, g) != [] && Broad(gs, s, over, g))
    && (forall f | f in fans :: Means(gs, f.group, MembersOf(s, f.group), f))
    && forall i, j | 0 <= i < j < |fans| :: fans[i].firstSeq.Some? && fans[j].firstSeq.Some?
         && fans[i].firstSeq.value < fans[j].firstSeq.value
  }

  lemma WideFansOrdered(gs: Groups, s: seq<Step>, over: nat)
    requires BySeq(s)
    ensures var fans := WideFans(gs, s, over);
            forall i, j | 0 <= i < j < |fans| :: fans[i].firstSeq.Some? && fans[j].firstSeq.Some?
              && fans[i].firstSeq.value < fans[j].firstSeq.value
  {
    var wide, fans := WideOf(gs, s, over, GroupsOf(s)), WideFans(gs, s, over);
    GroupsInOrder(s);
    WideInOrder(gs, s, over, GroupsOf(s));
    forall i | 0 <= i < |wide| ensures fans[i].firstSeq == Some(MembersOf(s, wide[i])[0].at) {
      assert wide[i] in wide;
      FilterBySeq(s, (r: Step) => r.group == Some(wide[i]));
      FirstIsHead(MembersOf(s, wide[i]));
    }
  }

  lemma WideFansMean(gs: Groups, s: seq<Step>, over: nat)
    ensures var fans := WideFans(gs, s, over);
            && (forall g :: (exists f :: f in fans && f.group == g) <==> MembersOf(s, g) != [] && Broad(gs, s, over, g))
            && (forall f | f in fans :: Means(gs, f.group, MembersOf(s, f.group), f))
  {
    var wide, fans := WideOf(gs, s, over, GroupsOf(s)), WideFans(gs, s, over);
    WideElements(gs, s, over, GroupsOf(s));
    forall f | f in fans ensures f.group in wide && Means(gs, f.group, MembersOf(s, f.group), f) {
      var i :| 0 <= i < |fans| && fans[i] == f;
      assert wide[i] in wide;
      GroupsHaveMembers(s, wide[i]);
      SummaryMeans(gs, wide[i], MembersOf(s, wide[i]));
    }
    forall g ensures (exists f :: f in fans && f.group == g) <==> MembersOf(s, g) != [] && Broad(gs, s, over, g) {
      GroupsHaveMembers(s, g);
      if g in wide {
        var i :| 0 <= i < |wide| && wide[i] == g;
        assert fans[i] in fans && fans[i].group == g;
      }
    }
  }

  lemma DrawnWell(gs: Groups, s: seq<Step>, over: nat)
    requires BySeq(s)
    ensures WellDrawn(gs, s, over, Narrow(gs, s, over), WideFans(gs, s, over))
  {
    FilterSame(s, (r: Step) => r.group == None || !Wide(gs, s, over, r.group.value),
               (r: Step) => r.group == None || !Broad(gs, s, over, r.group.value));
    WideFansOrdered(gs, s, over);
    WideFansMean(gs, s, over);
  }

  /** The distinct elements of a list, in the order in which they first come. */
  ghost predicate Distinct(all: seq<string>, ids: seq<string>) {
    && (forall i, j | 0 <= i < j < |ids| :: ids[i] != ids[j]) && (forall id :: id in ids <==> id in all)
    && forall i | 0 <= i < |ids| ::
         exists k :: 0 <= k < |all| && all[k] == ids[i] && forall j | 0 <= j < k :: all[j] in ids[..i]
  }

  lemma {:induction false} DedupDistinct(all: seq<string>)
    ensures Distinct(all, Dedup(all))
  {
    if all != [] {
      var n := |all| - 1;
      var before, ids := Dedup(all[..n]), Dedup(all);
      DedupDistinct(all[..n]);
      assert all == all[..n] + [all[n]];
      forall i | 0 <= i < |ids|
        ensures exists k :: 0 <= k < |all| && all[k] == ids[i] && forall j | 0 <= j < k :: all[j] in ids[..i]
      {
        if i < |before| {
          assert ids[..i] == before[..i];
          var k :| 0 <= k < n && all[..n][k] == before[i] && forall j | 0 <= j < k :: all[..n][j] in before[..i];
          assert all[k] == ids[i] && forall j | 0 <= j < k :: all[..n][j] == all[j];
        } else {
          assert ids[..i] == before;
          assert forall j | 0 <= j < n :: all[..n][j] == all[j] && all[..n][j] in all[..n];
          assert all[n] == ids[i];
        }
      }
    }
  }

  // ---- whole details -------------------------------------------------------------------------

  datatype Detail = Detail(timeline: seq<Step>, fans: seq<FanSummary>, children: seq<string>, childCount: nat)

  /** What the whole checkpoint list makes of a run: the detail both roads are to give. */
  function DetailOf(gs: Groups, s: seq<Step>, over: nat): Detail {
    var ids := Dedup(Edges(s));
    Detail(Narrow(gs, s, over), WideFans(gs, s, over), Slice(ids, 0, SUMMARY_CHILD_LIMIT), |ids|)
  }

  /** One summary per group of `wide`. */
  ghost predicate Drawn(gs: Groups, s: seq<Step>, wide: seq<string>, fans: seq<FanSummary>) {
    |fans| == |wide| && forall k | 0 <= k < |wide| ::
      MembersOf(s, wide[k]) != [] && fans[k] == SummaryOf(gs, wide[k], MembersOf(s, wide[k]))
  }

  lemma DrawnMore(gs: Groups, s: seq<Step>, wide: seq<string>, fans: seq<FanSummary>, g: string, f: FanSummary)
    requires Drawn(gs, s, wide, fans) && MembersOf(s, g) != [] && f == SummaryOf(gs, g, MembersOf(s, g))
    ensures Drawn(gs, s, wide + [g], fans + [f])
  {
  }

  lemma DrawnAll(gs: Groups, s: seq<Step>, over: nat, wide: seq<string>, fans: seq<FanSummary>)
    requires BySeq(s) && wide == WideOf(gs, s, over, GroupsOf(s)) && Drawn(gs, s, wide, fans)
    ensures SortFans(fans) == fans == WideFans(gs, s, over)
  {
    assert fans == WideFans(gs, s, over);
    FansSorted(gs, s, over);
  }

  lemma WideSnoc(gs: Groups, s: seq<Step>, over: nat, groups: seq<string>, i: nat)
    requires i < |groups|
    ensures WideOf(gs, s, over, groups[..i + 1])
            == if Wide(gs, s, over, groups[i]) then WideOf(gs, s, over, groups[..i]) + [groups[i]]
              else WideOf(gs, s, over, groups[..i])
  {
    assert groups[..i + 1][..i] == groups[..i];
    assert WideOf(gs, s, over, groups[..i]) + [] == WideOf(gs, s, over, groups[..i]);
  }

  lemma GroupHasMembers(s: seq<Step>, groups: seq<string>, i: nat)
    requires groups == GroupsOf(s) && i < |groups|
    ensures MembersOf(s, groups[i]) != []
  {
    assert groups[i] in groups;
    GroupsHaveMembers(s, groups[i]);
  }

  /** The wide groups among `groups`, and their summaries from the list. */
  method SummarizeTimeline(gs: Groups, s: seq<Step>, over: nat) returns (timeline: seq<Step>, fans: seq<FanSummary>)
    requires BySeq(s)
    ensures timeline == Narrow(gs, s, over) && fans == WideFans(gs, s, over)
    ensures WellDrawn(gs, s, over, timeline, fans)
  {
    var groups: seq<string> := [];
    for i := 0 to |s|
      invariant groups == GroupsOf(s[..i])
    {
      assert s[..i + 1][..i] == s[..i];
      groups := WithGroup(groups, s[i].group);
    }
    assert s[..|s|] == s;
    var wide: seq<string>;
    wide, fans := [], [];
    for i := 0 to |groups|
      invariant wide == WideOf(gs, s, over, groups[..i]) && Drawn(gs, s, wide, fans)
    {
      WideSnoc(gs, s, over, groups, i);
      GroupHasMembers(s, groups, i);
      var members := MembersOf(s, groups[i]);
      if IsWide(gs, groups[i], |members|, over) {
        var f := SummarizeFan(gs, groups[i], members);
        DrawnMore(gs, s, wide, fans, groups[i], f);
        wide, fans := wide + [groups[i]], fans + [f];
      }
    }
    assert groups[..|groups|] == groups;
    DrawnAll(gs, s, over, wide, fans);
    fans := SortFans(fans);
    NarrowIs(gs, s, over, wide);
    timeline := Filter(s, (r: Step) => r.group == None || r.group.value !in wide);
    DrawnWell(gs, s, over);
  }

  lemma NarrowIs(gs: Groups, s: seq<Step>, over: nat, wide: seq<string>)
    requires wide == WideOf(gs, s, over, GroupsOf(s))
    ensures Filter(s, (r: Step) => r.group == None || r.group.value !in wide) == Narrow(gs, s, over)
  {
    WideElements(gs, s, over, GroupsOf(s));
    forall r | r in s && r.group.Some? ensures r.group.value in GroupsOf(s) {
      GroupsHaveMembers(s, r.group.value);
      FilterElements(s, (x: Step) => x.group == r.group);
      FilterSame(s, (x: Step) => x.group == r.group, (x: Step) => x.group == Some(r.group.value));
    }
    FilterSame(s, (r: Step) => r.group == None || r.group.value !in wide,
               (r: Step) => r.group == None || !Wide(gs, s, over, r.group.value));
  }

  /** Edge rows and folded ids, counted without de-duplicating, are at least the edges. */
  lemma {:induction false} EdgeCount(s: seq<Step>, edge: Step -> bool, folded: Step -> bool)
    requires forall r | r in s ::
               EdgesOk(r) && edge(r) == (r.kind == Child || r.kind == Spawn) && folded(r) == (r.kind == Folded)
    ensures |Edges(s)| <= |Filter(s, edge)| + |Edges(Filter(s, folded))|
  {
    if s != [] {
      var init, last := s[..|s| - 1], s[|s| - 1];
      assert s == init + [last] && last in s;
      EdgeCount(init, edge, folded);
      FilterSnoc(init, last, edge);
      FilterSnoc(init, last, folded);
      if folded(last) { assert (Filter(init, folded) + [last])[..|Filter(init, folded)|] == Filter(init, folded); }
    }
  }

  lemma GroupRowsCount(s: seq<Step>, g: string)
    ensures Rows(BucketsIn(StatsOf(s), g), (status: Status, kind: Kind) => true) == |MembersOf(s, g)|
  {
    GroupStats(s, g);
    StatsRows(MembersOf(s, g), (status: Status, kind: Kind) => true, (r: Step) => true);
    FilterAll(MembersOf(s, g), (r: Step) => true);
  }

  /** One group's fan, if it is wide, from its buckets. */
  method FanFromStore(gs: Groups, s: seq<Step>, over: nat, g: string, all: seq<Bucket>, folded: seq<Step>)
    returns (f: Option<FanSummary>)
    requires BySeq(s) && all == StatsOf(s) && MembersOf(s, g) != []
    requires folded == QueryOf(s, FoldedRows())
    ensures f.Some? <==> Wide(gs, s, over, g)
    ensures f.Some? ==> f.value == SummaryOf(gs, g, MembersOf(s, g))
  {
    GroupRowsCount(s, g);
    var buckets := BucketsIn(all, g);
    if IsWide(gs, g, Rows(buckets, (status: Status, kind: Kind) => true), over) {
      GroupStats(s, g);
      FoldedOf(s, g);
      var summary := SummarizeFanFromStats(gs, s, g, buckets, Filter(folded, (r: Step) => r.group == Some(g)));
      f := Some(summary);
    } else {
      f := None;
    }
  }

  function FoldedRows(): Query { Query(None, {}, None, {Folded}) }

  lemma FoldedOf(s: seq<Step>, g: string)
    ensures Filter(QueryOf(s, FoldedRows()), (r: Step) => r.group == Some(g))
            == Filter(s, (r: Step) => r.group == Some(g) && r.kind == Folded)
  {
    FilterTwice(s, (r: Step) => Matches(FoldedRows(), r), (r: Step) => r.group == Some(g),
        (r: Step) => r.group == Some(g) && r.kind == Folded);
  }

  /** The fans from the store's buckets. */
  method FansFromStore(gs: Groups, s: seq<Step>, over: nat, all: seq<Bucket>)
    returns (wide: seq<string>, fans: seq<FanSummary>)
    requires BySeq(s) && all == StatsOf(s)
    ensures wide == WideOf(gs, s, over, GroupsOf(s)) && fans == WideFans(gs, s, over)
  {
    StatsGroups(s);
    var groups := GroupsIn(all);
    var folded := QueryOf(s, FoldedRows());
    wide, fans := [], [];
    for i := 0 to |groups|
      invariant wide == WideOf(gs, s, over, groups[..i]) && Drawn(gs, s, wide, fans)
    {
      WideSnoc(gs, s, over, groups, i);
      GroupHasMembers(s, groups, i);
      var f := FanFromStore(gs, s, over, groups[i], all, folded);
      if f.Some? {
        DrawnMore(gs, s, wide, fans, groups[i], f.value);
        wide, fans := wide + [groups[i]], fans + [f.value];
      }
    }
    assert groups[..|groups|] == groups;
    DrawnAll(gs, s, over, wide, fans);
    fans := SortFans(fans);
  }

  /** The run's children, and their count: exact when every edge row was read. */
  method ChildrenFromStore(s: seq<Step>, all: seq<Bucket>) returns (children: seq<string>, count: nat, complete: bool)
    requires Timeline(s) && all == StatsOf(s)
    ensures children == Slice(Dedup(Edges(s)), 0, 200)
    ensures complete ==> count == |Dedup(Edges(s))|
    ensures !complete ==> count >= |Dedup(Edges(s))| >= 200
  {
    var edge := (status: Status, kind: Kind) => kind == Child || kind == Spawn;
    StatsRows(s, edge, (r: Step) => r.kind == Child || r.kind == Spawn);
    var edgeRows := Rows(all, edge);
    var folded := QueryOf(s, Query(None, {}, None, {Folded}));
    FilterSame(s, (r: Step) => Matches(Query(None, {}, None, {Folded}), r), (r: Step) => r.kind == Folded);
    EdgeCount(s, (r: Step) => r.kind == Child || r.kind == Spawn, (r: Step) => r.kind == Folded);
    DedupSize(Edges(s));
    if edgeRows == 0 && folded == [] {
      return [], 0, true;
    }
    var ids;
    ids, complete := FirstChildIds(s);
    children := Slice(ids, 0, SUMMARY_CHILD_LIMIT);
    count := if complete then |ids| else edgeRows + |Edges(folded)|;
  }

  /**
   * The aggregate-based detail is the full-scan one: the same timeline, the same fans and the same
   * first children. The count of children is exact too, unless the run has more edge rows than one
   * page and more children than the limit; then it is never too low.
   */
  method SummarizeRunFromStore(gs: Groups, s: seq<Step>, over: nat) returns (d: Detail, complete: bool)
    requires Timeline(s)
    ensures d == DetailOf(gs, s, over).(childCount := d.childCount)
    ensures complete ==> d == DetailOf(gs, s, over)
    ensures !complete ==> d.childCount >= DetailOf(gs, s, over).childCount >= 200
    ensures WellDrawn(gs, s, over, d.timeline, d.fans)
    ensures exists ids :: Distinct(Edges(s), ids) && d.childCount >= |ids| && (complete ==> d.childCount == |ids|)
                          && d.children == if |ids| <= 200 then ids else ids[..200]
  {
    var all := CheckpointStats(s);
    var wide, fans := FansFromStore(gs, s, over, all);
    var children, count;
    children, count, complete := ChildrenFromStore(s, all);
    NarrowIs(gs, s, over, wide);
    var timeline := Excluding(s, wide);
    d := Detail(timeline, fans, children, count);
    DetailMeans(gs, s, over, d, complete);
  }

  lemma DetailMeans(gs: Groups, s: seq<Step>, over: nat, d: Detail, complete: bool)
    requires Timeline(s) && d == DetailOf(gs, s, over).(childCount := d.childCount)
    requires (complete ==> d == DetailOf(gs, s, over)) && d.childCount >= DetailOf(gs, s, over).childCount
    ensures WellDrawn(gs, s, over, d.timeline, d.fans)
    ensures exists ids :: Distinct(Edges(s), ids) && d.childCount >= |ids| && (complete ==> d.childCount == |ids|)
                          && d.children == if |ids| <= 200 then ids else ids[..200]
  {
    DrawnWell(gs, s, over);
    DedupDistinct(Edges(s));
  }

  /** The rows outside the groups `wide`. */
  method Excluding(s: seq<Step>, wide: seq<string>) returns (rows: seq<Step>)
    ensures rows == Filter(s, (r: Step) => r.group == None || r.group.value !in wide)
  {
    var excluded: set<string> := set g | g in wide;
    var q := Query(None, excluded, None, EVERY);
    forall r | r in s ensures r.kind in EVERY { EveryKind(r.kind); }
    FilterSame(s, (r: Step) => Matches(q, r), (r: Step) => r.group == None || r.group.value !in wide);
    rows := QueryOf(s, q);
  }
}
