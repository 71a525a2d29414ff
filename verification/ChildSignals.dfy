/**
 * Whether a parent already holds a child's completion: the lookup by the position the child's id
 * names, against the answer a scan by name gives; and the sweep of a page of buffered completions.
 * Ids and checkpoint names are taken apart: their grammar is the business of `FanIds` and `FanGroups`.
 */
module ChildSignals {
  import opened Common
  import Runs = RunStatuses

  /** A child run's id, as the engine mints it or as a caller chose it. */
  datatype ChildId =
    | InFan(parent: string, first: nat, wave: Option<nat>, index: nat)
    | AtSeq(parent: string, at: nat)
    | OnError(parent: string, attempt: nat)
    | Chosen(name: string)

  datatype Name =
    | Signal(child: ChildId)
    | Fold(parent: string, first: nat, wave: Option<nat>)
    | Spawn(child: ChildId)
    | Other

  /** What a checkpoint holds; a completion JSON cannot hold compares equal to nothing. */
  datatype Output = Completed(completion: Completion) | Values(from: nat, count: nat) | Opaque

  datatype Checkpoint = Checkpoint(name: Name, completed: bool, output: Output)

  type Journal = map<nat, Checkpoint>

  function ParentOf(c: ChildId): Option<string> {
    match c
    case InFan(p, _, _, _) => Some(p)
    case AtSeq(p, _) => Some(p)
    case OnError(p, _) => Some(p)
    case Chosen(_) => None
  }

  /** The children a fold checkpoint of that name stands for, from and how many. */
  function FoldOf(cp: Option<Checkpoint>, name: Name): Option<(nat, nat)> {
    match cp
    case Some(Checkpoint(n, true, Values(from, count))) => if n == name then Some((from, count)) else None
    case _ => None
  }

  predicate Covers(fold: Option<(nat, nat)>, index: nat) {
    fold.Some? && fold.value.0 <= index < fold.value.0 + fold.value.1
  }

  predicate HoldsSignal(cp: Checkpoint, signal: Name, expected: Option<Completion>) {
    expected.Some? && cp.completed && cp.name == signal && cp.output == Completed(expected.value)
  }

  function At(j: Journal, s: nat): Option<Checkpoint> { if s in j then Some(j[s]) else None }

  function FoldName(c: ChildId): Name
    requires c.InFan?
  {
    Fold(c.parent, c.first, c.wave)
  }

  /** The answer by name: the completed signal with an equal payload, or a fold covering the child. */
  predicate SettlesAt(j: Journal, s: nat, c: ChildId, expected: Option<Completion>)
    requires s in j
  {
    HoldsSignal(j[s], Signal(c), expected) || (c.InFan? && Covers(FoldOf(Some(j[s]), FoldName(c)), c.index))
  }

  predicate ByName(j: Journal, c: ChildId, expected: Option<Completion>) {
    exists s :: s in j && SettlesAt(j, s, c, expected)
  }

  /**
   * The checkpoint is the child's completed signal with that payload, or a completed fold of its block
   * that spans it.
   */
  predicate Tells(cp: Checkpoint, c: ChildId, payload: Option<Completion>) {
    && cp.completed
    && ((cp.name == Signal(c) && payload.Some? && cp.output == Completed(payload.value))
        || (c.InFan? && cp.name == Fold(c.parent, c.first, c.wave)
            && cp.output.Values? && cp.output.from <= c.index < cp.output.from + cp.output.count))
  }

  lemma ByNameIs(j: Journal, c: ChildId, payload: Option<Completion>)
    ensures ByName(j, c, payload) <==> exists s :: s in j && Tells(j[s], c, payload)
  {
    forall s | s in j ensures SettlesAt(j, s, c, payload) <==> Tells(j[s], c, payload) {
    }
    if s :| s in j && Tells(j[s], c, payload) { assert SettlesAt(j, s, c, payload); }
    if s :| s in j && SettlesAt(j, s, c, payload) { assert Tells(j[s], c, payload); }
  }

  /** What the keyed lookup finds is there. */
  lemma KeyedIsThere(j: Journal, c: ChildId, payload: Option<Completion>)
    requires Keyed(j, c, payload)
    ensures exists s :: s in j && Tells(j[s], c, payload)
  {
    ByNameIs(j, c, payload);
    match c
    case InFan(_, _, _, _) => KeyedFound(j, c, payload);
    case AtSeq(_, n) => assert n in j && HoldsSignal(j[n], Signal(c), payload) ==> SettlesAt(j, n, c, payload);
    case _ =>
  }

  datatype Look = Held(held: bool) | ReadFold(at: nat) | ReadNames

  /** The first keyed read: what the checkpoints at the child's own position and its fan's first say. */
  function FirstLook(j: Journal, c: ChildId, expected: Option<Completion>): Look {
    match c
    case InFan(p, first, wave, index) =>
      var own, atFirst := At(j, first + index), At(j, first);
      if own.Some? && own.value.name == Signal(c) then Held(HoldsSignal(own.value, Signal(c), expected))
      else if Covers(FoldOf(own, FoldName(c)), index) then Held(true)
      else if wave == None || wave == Some(0) then Held(Covers(FoldOf(atFirst, FoldName(c)), index))
      else
        var waveZero := FoldOf(atFirst, Fold(p, first, Some(0)));
        if waveZero.Some? && waveZero.value.1 > 0 then ReadFold(first + wave.value * waveZero.value.1) else ReadNames
    case AtSeq(_, n) =>
      var own := At(j, n);
      if own.Some? && own.value.name == Signal(c) then Held(HoldsSignal(own.value, Signal(c), expected))
      else if own == None then Held(false)
      else ReadNames
    case _ => ReadNames
  }

  /** The whole keyed lookup of one child. */
  predicate Keyed(j: Journal, c: ChildId, expected: Option<Completion>) {
    match FirstLook(j, c, expected)
    case Held(held) => held
    case ReadFold(s) => c.InFan? && Covers(FoldOf(At(j, s), FoldName(c)), c.index)
    case ReadNames => ByName(j, c, expected)
  }

  // ---- when the two agree --------------------------------------------------------------------

  predicate IsFold(p: string, cp: Checkpoint) {
    cp.name.Fold? && cp.name.parent == p && cp.completed && cp.output.Values?
  }

  /**
   * A fold sits at its first child; that of a whole fan, or of its first wave, at the fan's first
   * position, and that of wave `k` as many first waves on.
   */
  predicate Folds(p: string, j: Journal) {
    && (forall s | s in j && IsFold(p, j[s]) ::
          && s == j[s].name.first + j[s].output.from
          && (j[s].name.wave == None || j[s].name.wave == Some(0) ==> j[s].output.from == 0))
    && (forall s, z | s in j && z in j && IsFold(p, j[s]) && IsFold(p, j[z]) ::
          j[s].name.first == j[z].name.first && j[s].name.wave.Some? && j[z].name.wave == Some(0) ==>
            j[s].output.from == j[s].name.wave.value * j[z].output.count)
  }

  /** A fan's child whose own row says otherwise than what is looked for, under a fold that covers it. */
  predicate Shadowed(j: Journal, c: ChildId, expected: Option<Completion>) {
    && c.InFan? && c.first + c.index in j
    && j[c.first + c.index].name == Signal(c) && !HoldsSignal(j[c.first + c.index], Signal(c), expected)
    && Covered(j, c)
  }

  predicate Covered(j: Journal, c: ChildId)
    requires c.InFan?
  {
    exists s :: s in j && Covers(FoldOf(Some(j[s]), FoldName(c)), c.index)
  }

  predicate Recorded(j: Journal, c: ChildId, expected: Option<Completion>) {
    exists s :: s in j && HoldsSignal(j[s], Signal(c), expected)
  }

  /**
   * A child whose outcome is recorded, but not where the keyed lookup goes: away from the position its
   * id names, which is empty, says otherwise, or is another's, with no fold that covers a fan's child.
   */
  predicate Misplaced(j: Journal, c: ChildId, expected: Option<Completion>) {
    && Recorded(j, c, expected) && FirstLook(j, c, expected) != ReadNames
    && match c
       case InFan(_, first, _, index) =>
         && (first + index in j ==> !HoldsSignal(j[first + index], Signal(c), expected))
         && (!Covered(j, c) || (first + index in j && j[first + index].name == Signal(c)))
       case AtSeq(_, n) => n in j ==> !HoldsSignal(j[n], Signal(c), expected)
       case _ => false
  }

  /** The keyed lookup decides as the scan by name exactly when the child is neither shadowed nor misplaced. */
  lemma KeyedIff(p: string, j: Journal, c: ChildId, expected: Option<Completion>)
    requires Folds(p, j) && ParentOf(c) == Some(p)
    ensures (Keyed(j, c, expected) <==> ByName(j, c, expected)) <==>
              !Shadowed(j, c, expected) && !Misplaced(j, c, expected)
  {
    match c
    case InFan(_, _, _, _) => KeyedFanIff(p, j, c, expected);
    case AtSeq(_, n) => KeyedSeqIff(j, c, expected);
    case _ =>
  }

  /** Whatever the journal. */
  lemma KeyedSeqIff(j: Journal, c: ChildId, expected: Option<Completion>)
    requires c.AtSeq?
    ensures (Keyed(j, c, expected) <==> ByName(j, c, expected)) <==> !Misplaced(j, c, expected)
  {
    if c.at in j { assert HoldsSignal(j[c.at], Signal(c), expected) ==> SettlesAt(j, c.at, c, expected); }
    if Recorded(j, c, expected) {
      var s :| s in j && HoldsSignal(j[s], Signal(c), expected);
      assert SettlesAt(j, s, c, expected);
    }
  }

  lemma KeyedFanIff(p: string, j: Journal, c: ChildId, expected: Option<Completion>)
    requires Folds(p, j) && c.InFan? && c.parent == p
    ensures (Keyed(j, c, expected) <==> ByName(j, c, expected)) <==>
              !Shadowed(j, c, expected) && !Misplaced(j, c, expected)
  {
    if Keyed(j, c, expected) {
      KeyedFound(j, c, expected);
    } else if ByName(j, c, expected) {
      MissedIs(p, j, c, expected);
    } else {
      MissedByBoth(j, c, expected);
    }
  }

  lemma KeyedFound(j: Journal, c: ChildId, expected: Option<Completion>)
    requires c.InFan? && Keyed(j, c, expected)
    ensures ByName(j, c, expected) && !Shadowed(j, c, expected) && !Misplaced(j, c, expected)
  {
    var own := c.first + c.index;
    match FirstLook(j, c, expected)
    case ReadFold(s) => assert SettlesAt(j, s, c, expected);
    case Held(_) =>
      if own in j && (j[own].name == Signal(c) || Covers(FoldOf(Some(j[own]), FoldName(c)), c.index)) {
        assert SettlesAt(j, own, c, expected);
      } else {
        assert SettlesAt(j, c.first, c, expected);
      }
    case ReadNames =>
  }

  lemma MissedByBoth(j: Journal, c: ChildId, expected: Option<Completion>)
    requires c.InFan? && !ByName(j, c, expected)
    ensures !Shadowed(j, c, expected) && !Misplaced(j, c, expected)
  {
    assert forall s | s in j :: !SettlesAt(j, s, c, expected);
  }

  /** Found by name only. */
  lemma MissedIs(p: string, j: Journal, c: ChildId, expected: Option<Completion>)
    requires Folds(p, j) && c.InFan? && c.parent == p && ByName(j, c, expected) && !Keyed(j, c, expected)
    ensures Shadowed(j, c, expected) || Misplaced(j, c, expected)
  {
    var s :| s in j && SettlesAt(j, s, c, expected);
    if Covered(j, c) && !Shadowed(j, c, expected) {
      var q :| q in j && Covers(FoldOf(Some(j[q]), FoldName(c)), c.index);
      if !(c.first + c.index in j && j[c.first + c.index].name == Signal(c)) { FoldFound(p, j, c, expected, q); }
    }
  }

  /** The keyed lookup reaches the fold that covers the child. */
  lemma FoldFound(p: string, j: Journal, c: ChildId, expected: Option<Completion>, s: nat)
    requires Folds(p, j) && c.InFan? && c.parent == p
    requires c.first + c.index in j ==> j[c.first + c.index].name != Signal(c)
    requires s in j && Covers(FoldOf(Some(j[s]), FoldName(c)), c.index)
    ensures Keyed(j, c, expected)
  {
    assert IsFold(p, j[s]) && s == c.first + j[s].output.from;
    if c.wave.Some? && c.wave.value > 0 && c.first in j {
      var zero := FoldOf(Some(j[c.first]), Fold(p, c.first, Some(0)));
      if zero.Some? { assert IsFold(p, j[c.first]) && s == c.first + c.wave.value * zero.value.1; }
    }
    assert SettlesAt(j, s, c, expected);
    assert ByName(j, c, expected);
  }

  // ---- where the two differ ------------------------------------------------------------------

  /**
   * An outcome the child no longer has, landed under a fold already made: the scan sees the fold, the
   * keyed read the row.
   */
  lemma LateRowDiffers(p: string, stale: Completion, now: Completion)
    requires stale != now
    ensures var c := InFan(p, 5, None, 1);
            var j: Journal := map[5 := Checkpoint(Fold(p, 5, None), true, Values(0, 2)),
                6 := Checkpoint(Signal(c), true, Completed(stale))];
            Shadowed(j, c, Some(now)) && ByName(j, c, Some(now)) && !Keyed(j, c, Some(now))
  {
    var c := InFan(p, 5, None, 1);
    var j: Journal := map[5 := Checkpoint(Fold(p, 5, None), true, Values(0, 2)),
        6 := Checkpoint(Signal(c), true, Completed(stale))];
    assert SettlesAt(j, 5, c, Some(now));
  }

  /** A caller-chosen id spelled like an engine-minted one is looked for where it never was. */
  lemma LookAlikeDiffers(p: string, a: Completion)
    ensures var c := AtSeq(p, 3);
            var j: Journal := map[7 := Checkpoint(Signal(c), true, Completed(a))];
            Misplaced(j, c, Some(a)) && ByName(j, c, Some(a)) && !Keyed(j, c, Some(a))
  {
    var j: Journal := map[7 := Checkpoint(Signal(AtSeq(p, 3)), true, Completed(a))];
    assert SettlesAt(j, 7, AtSeq(p, 3), Some(a));
  }

  // ---- the batch -----------------------------------------------------------------------------

  datatype Entry = Entry(child: ChildId, expected: Option<Completion>)

  /** `parentSettles`: a keyed read, one more for the folds of later waves, and a read by name for the rest. */
  method ParentSettles(j: Journal, entries: seq<Entry>) returns (held: seq<bool>)
    ensures |held| == |entries|
    ensures forall k | 0 <= k < |entries| :: held[k] == Keyed(j, entries[k].child, entries[k].expected)
  {
    held := [];
    var waveFolds: seq<(nat, nat)>, byName: seq<nat> := [], [];
    for k := 0 to |entries|
      invariant |held| == k
      invariant forall i | 0 <= i < |waveFolds| ::
                  waveFolds[i].0 < k && FirstLook(j, entries[waveFolds[i].0].child, entries[waveFolds[i].0].expected)
                    == ReadFold(waveFolds[i].1)
      invariant forall i | 0 <= i < |byName| ::
                  byName[i] < k && FirstLook(j, entries[byName[i]].child, entries[byName[i]].expected) == ReadNames
      invariant forall i | 0 <= i < k ::
                  var look := FirstLook(j, entries[i].child, entries[i].expected);
                  && (look.Held? ==> held[i] == look.held)
                  && (look.ReadFold? ==> (i, look.at) in waveFolds)
                  && (look.ReadNames? ==> i in byName)
    {
      match FirstLook(j, entries[k].child, entries[k].expected) {
        case Held(h) => held := held + [h];
        case ReadFold(s) =>
          held, waveFolds := held + [false], waveFolds + [(k, s)];
        case ReadNames =>
          held, byName := held + [false], byName + [k];
      }
    }
    ghost var first := held;
    for i := 0 to |waveFolds|
      invariant |held| == |entries|
      invariant forall k | 0 <= k < |entries| ::
                  held[k] == first[k] || held[k] == Keyed(j, entries[k].child, entries[k].expected)
      invariant forall q | 0 <= q < i ::
                  held[waveFolds[q].0] == Keyed(j, entries[waveFolds[q].0].child, entries[waveFolds[q].0].expected)
    {
      var c := entries[waveFolds[i].0].child;
      var cp := At(j, waveFolds[i].1);
      held := held[waveFolds[i].0 := c.InFan? && Covers(FoldOf(cp, FoldName(c)), c.index)];
    }
    for i := 0 to |byName|
      invariant |held| == |entries|
      invariant forall k | 0 <= k < |entries| ::
                  held[k] == first[k] || held[k] == Keyed(j, entries[k].child, entries[k].expected)
      invariant forall q | 0 <= q < |waveFolds| ::
                  held[waveFolds[q].0] == Keyed(j, entries[waveFolds[q].0].child, entries[waveFolds[q].0].expected)
      invariant forall q | 0 <= q < i ::
                  held[byName[q]] == Keyed(j, entries[byName[q]].child, entries[byName[q]].expected)
    {
      var found := Named(j, entries[byName[i]].child, entries[byName[i]].expected);
      held := held[byName[i] := found];
    }
    forall k | 0 <= k < |entries| ensures held[k] == Keyed(j, entries[k].child, entries[k].expected) {
      match FirstLook(j, entries[k].child, entries[k].expected)
      case ReadFold(s) => var q :| 0 <= q < |waveFolds| && waveFolds[q] == (k, s);
      case ReadNames => var q :| 0 <= q < |byName| && byName[q] == k;
      case _ =>
    }
  }

  /** The read by name: every checkpoint of the parent is looked at. */
  method Named(j: Journal, c: ChildId, expected: Option<Completion>) returns (found: bool)
    ensures found <==> ByName(j, c, expected)
  {
    var left := j.Keys;
    found := false;
    while left != {}
      invariant left <= j.Keys
      invariant found <==> exists s :: s in j && s !in left && SettlesAt(j, s, c, expected)
      decreases |left|
    {
      var s :| s in left;
      ghost var before := left;
      left := left - {s};
      if SettlesAt(j, s, c, expected) {
        found := true;
      }
      assert forall t | t in j && t !in left :: t == s || t !in before;
    }
  }

  // ---- the sweep of a page -------------------------------------------------------------------

  /** A buffered row: `child` is absent on a token that is no child's. */
  datatype Row = Row(child: Option<ChildId>, payload: Option<Completion>)

  /**
   * What the sweep can read: the status of a parent's run, `None` when it is gone, its journal, and which
   * reads fail.
   */
  datatype Reads = Reads(status: string -> Option<Runs.RunStatus>, journal: string -> Journal, unread: string -> bool,
      broken: string -> bool)

  /** Terminal statuses a run can still leave. */
  const RETRYABLE := {Runs.Failed, Runs.Dead}

  /** `parentClosed`: gone, or terminal for good. */
  predicate Closed(s: Option<Runs.RunStatus>) { s == None || (s.value in Runs.TERMINAL && s.value !in RETRYABLE) }

  /** `childCompletionNeedsBuffer`, negated, on a child's row: no parent will ever consume it. */
  predicate Unneeded(r: Reads, row: Row) {
    row.child.Some?
    && match ParentOf(row.child.value)
       case None => true
       case Some(p) => Closed(r.status(p)) || Keyed(r.journal(p), row.child.value, row.payload)
  }

  /** The row's parent, when it is still to be asked. */
  function Asked(r: Reads, row: Row): Option<string> {
    if row.child == None then None
    else
      match ParentOf(row.child.value)
      case None => None
      case Some(p) => if r.unread(p) || Closed(r.status(p)) then None else Some(p)
  }

  /** Doomed by its own token, or by its parent's run row alone. */
  predicate DoomedAtOnce(r: Reads, row: Row) {
    row.child.Some?
    && match ParentOf(row.child.value)
       case None => true
       case Some(p) => !r.unread(p) && Closed(r.status(p))
  }

  /** Doomed at once, or by its parent's checkpoints, both of which could be read. */
  predicate MayDoom(r: Reads, row: Row) {
    || DoomedAtOnce(r, row)
    || (Asked(r, row).Some? && !r.broken(Asked(r, row).value)
        && Keyed(r.journal(Asked(r, row).value), row.child.value, row.payload))
  }

  datatype Group = Group(parent: string, rows: seq<nat>)

  /** Every group holds rows of its parent among the first `n`, the first of them first. */
  ghost predicate OfParent(r: Reads, page: seq<Row>, n: nat, groups: seq<Group>) {
    && (forall g | 0 <= g < |groups| :: groups[g].rows != [])
    && forall g, i | 0 <= g < |groups| && 0 <= i < |groups[g].rows| ::
         groups[g].rows[i] < n <= |page| && Asked(r, page[groups[g].rows[i]]) == Some(groups[g].parent)
         && groups[g].rows[0] <= groups[g].rows[i]
  }

  ghost predicate InOrder(groups: seq<Group>) {
    && (forall g | 0 <= g < |groups| :: groups[g].rows != [])
    && forall g, h | 0 <= g < h < |groups| :: groups[g].rows[0] < groups[h].rows[0]
  }

  /** The rows of the first `n`, by parent still to be asked, in the order they first appear. */
  ghost predicate Grouped(r: Reads, page: seq<Row>, n: nat, groups: seq<Group>) {
    && OfParent(r, page, n, groups) && InOrder(groups)
    && forall at: nat | at < n <= |page| && Asked(r, page[at]).Some? :: InSome(groups, at)
  }

  ghost predicate InSome(groups: seq<Group>, at: nat) {
    exists g, i :: 0 <= g < |groups| && 0 <= i < |groups[g].rows| && groups[g].rows[i] == at
  }

  method GroupRows(r: Reads, page: seq<Row>) returns (groups: seq<Group>, doomed: set<nat>)
    ensures Grouped(r, page, |page|, groups)
    ensures doomed == set at: nat | at < |page| && DoomedAtOnce(r, page[at])
  {
    groups, doomed := [], {};
    for at := 0 to |page|
      invariant Grouped(r, page, at, groups)
      invariant doomed == set k: nat | k < at && DoomedAtOnce(r, page[k])
    {
      if DoomedAtOnce(r, page[at]) {
        doomed := doomed + {at};
      }
      match Asked(r, page[at]) {
        case None =>
        case Some(p) =>
          ghost var before := groups;
          var g := 0;
          while g < |groups| && groups[g].parent != p
            invariant 0 <= g <= |groups|
          {
            g := g + 1;
          }
          if g < |groups| {
            groups := groups[g := Group(p, groups[g].rows + [at])];
          } else {
            groups := groups + [Group(p, [at])];
          }
          Regrouped(r, page, at, before, groups, g);
      }
    }
  }

  /** Row `at` joins group `g`, or starts it. */
  ghost predicate Joined(r: Reads, page: seq<Row>, at: nat, before: seq<Group>, groups: seq<Group>, g: nat) {
    && at < |page| && Asked(r, page[at]).Some? && g <= |before|
    && (g < |before| ==> before[g].parent == Asked(r, page[at]).value
                         && groups == before[g := Group(before[g].parent, before[g].rows + [at])])
    && (g == |before| ==> groups == before + [Group(Asked(r, page[at]).value, [at])])
  }

  lemma JoinedOfParent(r: Reads, page: seq<Row>, at: nat, before: seq<Group>, groups: seq<Group>, g: nat)
    requires Joined(r, page, at, before, groups, g) && OfParent(r, page, at, before) && InOrder(before)
    ensures OfParent(r, page, at + 1, groups) && InOrder(groups)
  {
  }

  lemma JoinedInSome(r: Reads, page: seq<Row>, at: nat, before: seq<Group>, groups: seq<Group>, g: nat, k: nat)
    requires Joined(r, page, at, before, groups, g) && (k == at || InSome(before, k))
    ensures InSome(groups, k)
  {
    if k == at {
      assert groups[g].rows[|groups[g].rows| - 1] == at;
    } else {
      var h, i :| 0 <= h < |before| && 0 <= i < |before[h].rows| && before[h].rows[i] == k;
      assert groups[h].rows[i] == k;
    }
  }

  lemma Regrouped(r: Reads, page: seq<Row>, at: nat, before: seq<Group>, groups: seq<Group>, g: nat)
    requires Grouped(r, page, at, before) && Joined(r, page, at, before, groups, g)
    ensures Grouped(r, page, at + 1, groups)
  {
    JoinedOfParent(r, page, at, before, groups, g);
    forall k: nat | k < at + 1 && Asked(r, page[k]).Some? ensures InSome(groups, k) {
      JoinedInSome(r, page, at, before, groups, g, k);
    }
  }

  /** Only rows no parent will consume are doomed, and every row its own token or its parent's row dooms is. */
  ghost predicate Doomed(r: Reads, page: seq<Row>, doomed: set<nat>) {
    && (forall at | at in doomed :: at < |page| && MayDoom(r, page[at]))
    && (forall at: nat | at < |page| && DoomedAtOnce(r, page[at]) :: at in doomed)
  }

  /** The row is doomed, needed, or its parent's checkpoints could not be read. */
  predicate Answered(r: Reads, page: seq<Row>, group: Group, doomed: set<nat>, i: nat)
    requires i < |group.rows| && group.rows[i] < |page|
  {
    group.rows[i] in doomed || r.broken(group.parent) || !Unneeded(r, page[group.rows[i]])
  }

  ghost predicate AnsweredUpTo(r: Reads, page: seq<Row>, groups: seq<Group>, g: nat, doomed: set<nat>) {
    && (forall h, i | 0 <= h < |groups| && 0 <= i < |groups[h].rows| :: groups[h].rows[i] < |page|)
    && forall h: nat, i: nat | h < g && h < |groups| && i < |groups[h].rows| :: Answered(r, page, groups[h], doomed, i)
  }

  /** Its parent's run row or checkpoints could not be read. */
  predicate Unreadable(r: Reads, row: Row) {
    row.child.Some? && ParentOf(row.child.value).Some?
    && (r.unread(ParentOf(row.child.value).value) || r.broken(ParentOf(row.child.value).value))
  }

  /** Every row before `decided` is doomed if it is not needed, unless it could not be read. */
  ghost predicate Final(r: Reads, page: seq<Row>, doomed: set<nat>, decided: nat) {
    forall at: nat | at < decided && at < |page| && Unneeded(r, page[at]) :: at in doomed || Unreadable(r, page[at])
  }

  lemma BeforeCut(r: Reads, page: seq<Row>, groups: seq<Group>, g: nat, h: nat, i: nat)
    requires Grouped(r, page, |page|, groups) && g < |groups| && h < |groups| && i < |groups[h].rows|
    requires groups[h].rows[i] < groups[g].rows[0]
    ensures h < g
  {
  }

  lemma RowFinal(r: Reads, page: seq<Row>, groups: seq<Group>, g: nat, doomed: set<nat>, h: nat, i: nat)
    requires Grouped(r, page, |page|, groups) && AnsweredUpTo(r, page, groups, g, doomed)
    requires h < g <= |groups| && i < |groups[h].rows| && Unneeded(r, page[groups[h].rows[i]])
    ensures groups[h].rows[i] in doomed || Unreadable(r, page[groups[h].rows[i]])
  {
    assert Answered(r, page, groups[h], doomed, i);
    assert Asked(r, page[groups[h].rows[i]]) == Some(groups[h].parent);
  }

  lemma AllFinal(r: Reads, page: seq<Row>, groups: seq<Group>, g: nat, doomed: set<nat>, decided: nat)
    requires Grouped(r, page, |page|, groups) && AnsweredUpTo(r, page, groups, g, doomed) && Doomed(r, page, doomed)
    requires g <= |groups| && (if g < |groups| then decided == groups[g].rows[0] else decided == |page|)
    ensures Final(r, page, doomed, decided)
  {
    forall at: nat | at < decided && at < |page| && Unneeded(r, page[at])
      ensures at in doomed || Unreadable(r, page[at])
    {
      if !DoomedAtOnce(r, page[at]) && Asked(r, page[at]).Some? {
        assert InSome(groups, at);
        var h, i :| 0 <= h < |groups| && 0 <= i < |groups[h].rows| && groups[h].rows[i] == at;
        if g < |groups| { BeforeCut(r, page, groups, g, h, i); }
        RowFinal(r, page, groups, g, doomed, h, i);
      }
    }
  }

  /** A child's row no parent is there to consume: its id names none, or its parent is gone, completed or cancelled. */
  predicate Orphaned(r: Reads, row: Row) {
    && row.child.Some?
    && (row.child.value.Chosen?
        || (!r.unread(row.child.value.parent)
            && (var status := r.status(row.child.value.parent);
                status == None || status == Some(Runs.Completed) || status == Some(Runs.Cancelled))))
  }

  /** Its parent's checkpoints were read, and one tells its completion. */
  ghost predicate ToldAlready(r: Reads, row: Row) {
    && row.child.Some? && !row.child.value.Chosen?
    && !r.unread(row.child.value.parent) && !r.broken(row.child.value.parent)
    && exists s :: s in r.journal(row.child.value.parent)
                   && Tells(r.journal(row.child.value.parent)[s], row.child.value, row.payload)
  }

  /** The rows that may go: any other may still be consumed, a failed or dead parent's on its retry. */
  ghost predicate Dispensable(r: Reads, row: Row) { Orphaned(r, row) || ToldAlready(r, row) }

  /** Told by a checkpoint where the keyed lookup goes. */
  ghost predicate Delivered(r: Reads, row: Row) {
    && ToldAlready(r, row)
    && var c, j := row.child.value, r.journal(row.child.value.parent);
       Folds(c.parent, j) && !Shadowed(j, c, row.payload) && !Misplaced(j, c, row.payload)
  }

  lemma OrphanedIs(r: Reads, row: Row)
    ensures Orphaned(r, row) <==> DoomedAtOnce(r, row)
  {
  }

  lemma Verdicts(r: Reads, page: seq<Row>, doomed: set<nat>, decided: nat)
    requires Doomed(r, page, doomed) && Final(r, page, doomed, decided)
    ensures forall at | at in doomed :: at < |page| && Unneeded(r, page[at]) && Dispensable(r, page[at])
    ensures forall at: nat | at < |page| && Orphaned(r, page[at]) :: at in doomed
    ensures forall at: nat | at < |page| && at < decided && Delivered(r, page[at]) :: at in doomed
  {
    forall at | at in doomed ensures Dispensable(r, page[at]) {
      OrphanedIs(r, page[at]);
      if !DoomedAtOnce(r, page[at]) {
        KeyedIsThere(r.journal(page[at].child.value.parent), page[at].child.value, page[at].payload);
      }
    }
    forall at: nat | at < |page| && Orphaned(r, page[at]) ensures at in doomed { OrphanedIs(r, page[at]); }
    forall at: nat | at < |page| && at < decided && Delivered(r, page[at]) ensures at in doomed {
      var c, j := page[at].child.value, r.journal(page[at].child.value.parent);
      ByNameIs(j, c, page[at].payload);
      KeyedIff(c.parent, j, c, page[at].payload);
    }
  }

  /**
   * `unneededChildSignals`: `expired(k)` says whether the deadline has passed when the `k`-th parent
   * comes up. No doomed row is one a parent may still consume; every row before `decided` is decided
   * for good, but for those whose parent could not be read; and a call on a non-empty page decides at
   * least one row.
   */
  method Sweep(r: Reads, page: seq<Row>, expired: nat -> bool) returns (doomed: set<nat>, decided: nat)
    ensures decided <= |page| && (|page| > 0 ==> decided > 0)
    ensures decided < |page| ==> exists k: nat :: k > 0 && expired(k)
    ensures forall at | at in doomed :: at < |page| && Unneeded(r, page[at])
    ensures Final(r, page, doomed, decided)
    ensures forall at | at in doomed :: at < |page| && Dispensable(r, page[at])
    ensures forall at: nat | at < |page| && Orphaned(r, page[at]) :: at in doomed
    ensures forall at: nat | at < |page| && at < decided && Delivered(r, page[at]) :: at in doomed
  {
    var groups;
    groups, doomed := GroupRows(r, page);
    decided := |page|;
    var g := 0;
    while g < |groups|
      invariant 0 <= g <= |groups| && decided == |page|
      invariant Doomed(r, page, doomed) && AnsweredUpTo(r, page, groups, g, doomed)
    {
      if g > 0 && expired(g) {
        assert groups[0].rows[0] < groups[g].rows[0];
        decided := groups[g].rows[0];
        break;
      }
      if !r.broken(groups[g].parent) {
        ghost var before := doomed;
        doomed := AskParent(r, page, groups[g], doomed);
        StillAnswered(r, page, groups, g, before, doomed);
      }
      g := g + 1;
    }
    AllFinal(r, page, groups, g, doomed, decided);
    Verdicts(r, page, doomed, decided);
  }

  lemma StillAnswered(r: Reads, page: seq<Row>, groups: seq<Group>, g: nat, before: set<nat>, doomed: set<nat>)
    requires AnsweredUpTo(r, page, groups, g, before) && before <= doomed && g < |groups|
    requires forall i: nat | i < |groups[g].rows| :: Answered(r, page, groups[g], doomed, i)
    ensures AnsweredUpTo(r, page, groups, g + 1, doomed)
  {
    forall h: nat, i: nat | h < g && i < |groups[h].rows| ensures Answered(r, page, groups[h], doomed, i) {
      assert Answered(r, page, groups[h], before, i);
    }
  }

  /** One parent's checkpoints decide all of its rows in the page. */
  method AskParent(r: Reads, page: seq<Row>, group: Group, doomed: set<nat>) returns (more: set<nat>)
    requires !r.broken(group.parent)
    requires forall i | 0 <= i < |group.rows| ::
               group.rows[i] < |page| && Asked(r, page[group.rows[i]]) == Some(group.parent)
    ensures doomed <= more
    ensures forall at | at in more :: at in doomed || (at < |page| && MayDoom(r, page[at]))
    ensures forall i: nat | i < |group.rows| :: Answered(r, page, group, more, i)
  {
    var entries := seq(|group.rows|,
        i requires 0 <= i < |group.rows| => Entry(page[group.rows[i]].child.value, page[group.rows[i]].payload));
    var held := ParentSettles(r.journal(group.parent), entries);
    more := doomed;
    for i := 0 to |held|
      invariant doomed <= more
      invariant forall at | at in more :: at in doomed || (at < |page| && MayDoom(r, page[at]))
      invariant forall k | 0 <= k < i :: group.rows[k] in more || !Unneeded(r, page[group.rows[k]])
    {
      assert entries[i] == Entry(page[group.rows[i]].child.value, page[group.rows[i]].payload);
      if held[i] {
        more := more + {group.rows[i]};
      }
    }
  }
}
