/** The store's buckets, and the fan summary built from them. */
module RunDetailStats {
  import opened Common
  import opened RunDetail

  const FAN_SUMMARY_FAILURES: nat := 20

  /** The rows sharing a group, a status and a kind of name, reduced to aggregates. */
  datatype Bucket = Bucket(
    group: Option<string>, status: Status, kind: Kind, count: nat,
    minSeq: int, maxSeq: int, minName: int, maxName: int, minEnqueued: int, minStarted: int, maxFinished: int)

  predicate Same(b: Bucket, r: Step) { b.group == r.group && b.status == r.status && b.kind == r.kind }

  function Single(r: Step): Bucket {
    Bucket(r.group, r.status, r.kind, 1, r.at, r.at, r.name, r.name, r.enqueuedAt, r.startedAt, r.finishedAt)
  }

  function Min(a: int, b: int): int { if b < a then b else a }
  function Max(a: int, b: int): int { if b > a then b else a }

  function Grow(b: Bucket, r: Step): Bucket {
    Bucket(b.group, b.status, b.kind, b.count + 1, Min(b.minSeq, r.at), Max(b.maxSeq, r.at),
           Min(b.minName, r.name), Max(b.maxName, r.name),
           Min(b.minEnqueued, r.enqueuedAt), Min(b.minStarted, r.startedAt), Max(b.maxFinished, r.finishedAt))
  }

  /** The place of the row's bucket; the length when it has none yet. */
  function PlaceOf(bs: seq<Bucket>, r: Step): (k: nat)
    ensures k <= |bs| && (k < |bs| ==> Same(bs[k], r)) && forall i | 0 <= i < k :: !Same(bs[i], r)
  {
    if bs == [] then 0 else if Same(bs[0], r) then 0 else PlaceOf(bs[1..], r) + 1
  }

  function AddRow(bs: seq<Bucket>, r: Step): seq<Bucket> {
    var k := PlaceOf(bs, r);
    if k < |bs| then bs[k := Grow(bs[k], r)] else bs + [Single(r)]
  }

  /** `checkpointStatsOf`. */
  function StatsOf(s: seq<Step>): seq<Bucket> {
    if s == [] then [] else AddRow(StatsOf(s[..|s| - 1]), s[|s| - 1])
  }

  method CheckpointStats(s: seq<Step>) returns (bs: seq<Bucket>)
    ensures bs == StatsOf(s)
  {
    bs := [];
    for i := 0 to |s|
      invariant bs == StatsOf(s[..i])
    {
      assert s[..i + 1][..i] == s[..i];
      var k := 0;
      while k < |bs| && !Same(bs[k], s[i])
        invariant 0 <= k <= |bs| && forall j | 0 <= j < k :: !Same(bs[j], s[i])
      {
        k := k + 1;
      }
      if k == |bs| {
        bs := bs + [Single(s[i])];
      } else {
        bs := bs[k := Grow(bs[k], s[i])];
      }
    }
    assert s[..|s|] == s;
  }

  // ---- sums over buckets ---------------------------------------------------------------------

  /** What the summary's loop takes from a bucket. */
  function OfBucket(b: Bucket): Totals {
    var (started, finished) := if Ended(b.status) then (b.minStarted, Some(b.maxFinished)) else (b.minEnqueued, None);
    Totals(Some(b.minSeq), Some(b.maxSeq), Some(started), finished, Some(b.minName), Some(b.maxName),
           b.kind == Child || b.kind == Folded,
           if ByPayload(b.kind, b.status) then map[] else map[b.status := b.count],
           if ByPayload(b.kind, b.status) then 0 else b.count)
  }

  lemma BucketGrows(b: Bucket, r: Step)
    requires Same(b, r)
    ensures OfBucket(Grow(b, r)) == Plus(OfBucket(b), Columns(r))
  {
    var c, d := OfBucket(b).counts, Columns(r).counts;
    assert AddCounts(c, d) == OfBucket(Grow(b, r)).counts;
  }

  function SumBuckets(bs: seq<Bucket>): Totals {
    if bs == [] then ZERO else Plus(SumBuckets(bs[..|bs| - 1]), OfBucket(bs[|bs| - 1]))
  }

  lemma {:induction false} SumUpdated(bs: seq<Bucket>, k: nat, b: Bucket, x: Totals)
    requires k < |bs| && OfBucket(b) == Plus(OfBucket(bs[k]), x)
    ensures SumBuckets(bs[k := b]) == Plus(SumBuckets(bs), x)
  {
    var n := |bs| - 1;
    if k == n {
      assert bs[k := b][..n] == bs[..n];
      PlusAssoc(SumBuckets(bs[..n]), OfBucket(bs[k]), x);
    } else {
      assert bs[k := b][..n] == bs[..n][k := b];
      SumUpdated(bs[..n], k, b, x);
      Swap(SumBuckets(bs[..n]), x, OfBucket(bs[n]));
    }
  }

  lemma Swap(s: Totals, x: Totals, last: Totals)
    ensures Plus(Plus(s, x), last) == Plus(Plus(s, last), x)
  {
    PlusAssoc(s, x, last);
    PlusComm(x, last);
    PlusAssoc(s, last, x);
  }

  lemma SumAdded(bs: seq<Bucket>, r: Step)
    ensures SumBuckets(AddRow(bs, r)) == Plus(SumBuckets(bs), Columns(r))
  {
    var k := PlaceOf(bs, r);
    if k < |bs| {
      BucketGrows(bs[k], r);
      SumUpdated(bs, k, Grow(bs[k], r), Columns(r));
    } else {
      assert (bs + [Single(r)])[..|bs|] == bs;
      assert OfBucket(Single(r)) == Columns(r);
    }
  }

  /** The buckets add up to what the rows' columns do. */
  lemma {:induction false} StatsSum(s: seq<Step>)
    ensures SumBuckets(StatsOf(s)) == Sum(s, Columns)
  {
    if s != [] {
      StatsSum(s[..|s| - 1]);
      SumAdded(StatsOf(s[..|s| - 1]), s[|s| - 1]);
    }
  }

  /** How many rows the buckets that satisfy `p` hold. */
  function Rows(bs: seq<Bucket>, p: (Status, Kind) -> bool): nat {
    if bs == [] then 0
    else Rows(bs[..|bs| - 1], p) + if p(bs[|bs| - 1].status, bs[|bs| - 1].kind) then bs[|bs| - 1].count else 0
  }

  lemma {:induction false} RowsUpdated(bs: seq<Bucket>, k: nat, b: Bucket, p: (Status, Kind) -> bool)
    requires k < |bs| && b.status == bs[k].status && b.kind == bs[k].kind && b.count == bs[k].count + 1
    ensures Rows(bs[k := b], p) == Rows(bs, p) + if p(b.status, b.kind) then 1 else 0
  {
    var n := |bs| - 1;
    if k == n {
      assert bs[k := b][..n] == bs[..n];
    } else {
      assert bs[k := b][..n] == bs[..n][k := b];
      RowsUpdated(bs[..n], k, b, p);
    }
  }

  lemma {:induction false} StatsRows(s: seq<Step>, p: (Status, Kind) -> bool, q: Step -> bool)
    requires forall r | r in s :: q(r) == p(r.status, r.kind)
    ensures Rows(StatsOf(s), p) == |Filter(s, q)|
  {
    if s != [] {
      var init, last := s[..|s| - 1], s[|s| - 1];
      StatsRows(init, p, q);
      var bs := StatsOf(init);
      var k := PlaceOf(bs, last);
      assert q(last) == p(last.status, last.kind);
      if k < |bs| {
        RowsUpdated(bs, k, Grow(bs[k], last), p);
      } else {
        assert (bs + [Single(last)])[..|bs|] == bs;
      }
    }
  }

  /** Some bucket holds rows of that status and kind exactly when some row is of them. */
  lemma {:induction false} StatsHave(s: seq<Step>, p: (Status, Kind) -> bool)
    ensures (exists b :: b in StatsOf(s) && p(b.status, b.kind)) <==> exists r :: r in s && p(r.status, r.kind)
  {
    if s != [] {
      var init, last := s[..|s| - 1], s[|s| - 1];
      assert s == init + [last];
      StatsHave(init, p);
      AddedElements(StatsOf(init), last);
      var bs, more := StatsOf(init), StatsOf(s);
      if b :| b in bs && p(b.status, b.kind) { var c :| c in more && c.status == b.status && c.kind == b.kind; }
      if p(last.status, last.kind) { var c :| c in more && c.status == last.status && c.kind == last.kind; }
      if b :| b in more && p(b.status, b.kind) {
        if !(b.status == last.status && b.kind == last.kind) {
          assert exists c :: c in bs && c.status == b.status && c.kind == b.kind;
        }
      }
    }
  }

  lemma AddedElements(bs: seq<Bucket>, r: Step)
    ensures forall b | b in bs :: exists c :: c in AddRow(bs, r) && c.status == b.status && c.kind == b.kind
    ensures exists c :: c in AddRow(bs, r) && c.status == r.status && c.kind == r.kind
    ensures forall b | b in AddRow(bs, r) ::
              || (b.status == r.status && b.kind == r.kind)
              || exists c :: c in bs && c.status == b.status && c.kind == b.kind
  {
    var k, more := PlaceOf(bs, r), AddRow(bs, r);
    assert Same(more[k], r);
    forall b | b in bs ensures exists c :: c in more && c.status == b.status && c.kind == b.kind {
      var i :| 0 <= i < |bs| && bs[i] == b;
      assert more[i].status == b.status && more[i].kind == b.kind;
    }
    forall b | b in more
      ensures (b.status == r.status && b.kind == r.kind)
              || exists c :: c in bs && c.status == b.status && c.kind == b.kind
    {
      var i :| 0 <= i < |more| && more[i] == b;
      if i != k { assert bs[i] == b; }
    }
  }

  // ---- one group's buckets -------------------------------------------------------------------

  function BucketsIn(bs: seq<Bucket>, g: string): seq<Bucket> {
    if bs == [] then []
    else BucketsIn(bs[..|bs| - 1], g) + if bs[|bs| - 1].group == Some(g) then [bs[|bs| - 1]] else []
  }

  /** The rows of a group. */
  function MembersOf(s: seq<Step>, g: string): seq<Step> { Filter(s, (r: Step) => r.group == Some(g)) }

  lemma {:induction false} BucketsInConcat(a: seq<Bucket>, b: seq<Bucket>, g: string)
    ensures BucketsIn(a + b, g) == BucketsIn(a, g) + BucketsIn(b, g)
    decreases |b|
  {
    if b == [] {
      assert a + b == a;
    } else {
      assert (a + b)[..|a + b| - 1] == a + b[..|b| - 1];
      BucketsInConcat(a, b[..|b| - 1], g);
    }
  }

  lemma {:induction false} BucketsInElements(bs: seq<Bucket>, g: string)
    ensures forall b :: b in BucketsIn(bs, g) <==> b in bs && b.group == Some(g)
  {
    if bs != [] {
      BucketsInElements(bs[..|bs| - 1], g);
      assert bs == bs[..|bs| - 1] + [bs[|bs| - 1]];
    }
  }

  lemma {:induction false} PlaceIs(bs: seq<Bucket>, r: Step, k: nat)
    requires k <= |bs| && (k < |bs| ==> Same(bs[k], r)) && forall i | 0 <= i < k :: !Same(bs[i], r)
    ensures PlaceOf(bs, r) == k
  {
    if k > 0 { PlaceIs(bs[1..], r, k - 1); }
  }

  lemma OneBucketIn(b: Bucket, g: string)
    ensures BucketsIn([b], g) == if b.group == Some(g) then [b] else []
  {
    assert [b][..0] == [];
    assert BucketsIn([], g) == [];
  }

  /** The place of a row's bucket within its group's. */
  lemma PlaceIn(bs: seq<Bucket>, r: Step, g: string, pre: seq<Bucket>)
    requires r.group == Some(g) && forall b | b in pre :: !Same(b, r)
    requires bs == pre || exists x, post :: bs == pre + [x] + post && Same(x, r)
    ensures PlaceOf(BucketsIn(bs, g), r) == |BucketsIn(pre, g)|
  {
    BucketsInElements(pre, g);
    assert forall i | 0 <= i < |BucketsIn(pre, g)| :: BucketsIn(pre, g)[i] in BucketsIn(pre, g);
    if x, post :| bs == pre + [x] + post && Same(x, r) {
      BucketsInConcat(pre + [x], post, g);
      BucketsInConcat(pre, [x], g);
      OneBucketIn(x, g);
    }
    PlaceIs(BucketsIn(bs, g), r, |BucketsIn(pre, g)|);
  }

  lemma BucketsInAdded(bs: seq<Bucket>, r: Step, g: string)
    ensures BucketsIn(AddRow(bs, r), g) == if r.group == Some(g) then AddRow(BucketsIn(bs, g), r) else BucketsIn(bs, g)
  {
    var k := PlaceOf(bs, r);
    var pre := bs[..k];
    if k < |bs| {
      BucketsInUpdated(bs, r, g, pre, bs[k], bs[k + 1..]);
    } else {
      assert pre == bs;
      BucketsInConcat(bs, [Single(r)], g);
      OneBucketIn(Single(r), g);
      if r.group == Some(g) { PlaceIn(bs, r, g, pre); }
    }
  }

  lemma BucketsInAround(pre: seq<Bucket>, x: Bucket, post: seq<Bucket>, g: string)
    ensures BucketsIn(pre + [x] + post, g)
            == if x.group == Some(g) then BucketsIn(pre, g) + [x] + BucketsIn(post, g)
              else BucketsIn(pre, g) + BucketsIn(post, g)
  {
    BucketsInConcat(pre + [x], post, g);
    BucketsInConcat(pre, [x], g);
    OneBucketIn(x, g);
    assert BucketsIn(pre, g) + [] == BucketsIn(pre, g);
  }

  lemma BucketsInUpdated(bs: seq<Bucket>, r: Step, g: string, pre: seq<Bucket>, x: Bucket, post: seq<Bucket>)
    requires bs == pre + [x] + post && Same(x, r) && forall b | b in pre :: !Same(b, r)
    ensures BucketsIn(bs[|pre| := Grow(x, r)], g) == if r.group == Some(g) then AddRow(BucketsIn(bs, g), r)
            else BucketsIn(bs, g)
  {
    var y := Grow(x, r);
    assert bs[|pre| := y] == pre + [y] + post;
    BucketsInAround(pre, x, post, g);
    BucketsInAround(pre, y, post, g);
    if r.group == Some(g) {
      PlaceIn(bs, r, g, pre);
      Replaced(BucketsIn(pre, g), x, y, BucketsIn(post, g));
    }
  }

  lemma Replaced(a: seq<Bucket>, x: Bucket, y: Bucket, b: seq<Bucket>)
    ensures (a + [x] + b)[|a|] == x && (a + [x] + b)[|a| := y] == a + [y] + b
  {
  }

  lemma StatsSnoc(s: seq<Step>, r: Step)
    ensures StatsOf(s + [r]) == AddRow(StatsOf(s), r)
  {
    assert (s + [r])[..|s|] == s;
  }

  lemma FilterSnoc(s: seq<Step>, r: Step, p: Step -> bool)
    ensures Filter(s + [r], p) == if p(r) then Filter(s, p) + [r] else Filter(s, p)
  {
    assert (s + [r])[..|s|] == s;
    assert Filter(s, p) + [] == Filter(s, p);
  }

  /** A group's buckets are the buckets of its rows. */
  lemma {:induction false} GroupStats(s: seq<Step>, g: string)
    ensures BucketsIn(StatsOf(s), g) == StatsOf(MembersOf(s, g))
  {
    if s != [] {
      var init, last := s[..|s| - 1], s[|s| - 1];
      assert s == init + [last];
      GroupStats(init, g);
      StatsSnoc(init, last);
      BucketsInAdded(StatsOf(init), last, g);
      FilterSnoc(init, last, (r: Step) => r.group == Some(g));
      StatsSnoc(MembersOf(init, g), last);
    }
  }
}
