/** How a `ctx.all` fan is cut into waves (`allWaves`). */
module FanPlan {
  import opened Common

  datatype Waves = Waves(waveSize: nat, maxWaves: nat)
  datatype Limit = Unbounded | Bounded(waves: Waves) | Rejected

  /** The waves of a fan of `size` children under a `concurrency` limit; rejected unless a positive integer. */
  function AllWaves(size: nat, concurrency: Option<real>): (l: Limit)
    ensures l.Bounded? ==>
              && concurrency.Some? && 1 <= l.waves.waveSize && 1 <= l.waves.maxWaves
              && IsInteger(concurrency.value) && concurrency.value < size as real
              && concurrency.value.Floor - 1 <= l.waves.waveSize * l.waves.maxWaves <= concurrency.value.Floor
    ensures l.Bounded? ==>
              if concurrency.value == 1.0 then l.waves == Waves(1, 1)
              else l.waves.maxWaves == 2 && 2 * l.waves.waveSize <= concurrency.value.Floor <= 2 * l.waves.waveSize + 1
    ensures l.Unbounded? <==>
              concurrency == None || (IsInteger(concurrency.value) && 1.0 <= concurrency.value
                  && size as real <= concurrency.value)
    ensures l.Rejected? <==> concurrency.Some? && !(IsInteger(concurrency.value) && concurrency.value >= 1.0)
  {
    match concurrency
    case None => Unbounded
    case Some(c) =>
      if !IsInteger(c) || c < 1.0 then Rejected
      else if c >= size as real then Unbounded
      else if c == 1.0 then Bounded(Waves(1, 1))
      else Bounded(Waves(c.Floor / 2, 2))
  }

  predicate IsInteger(x: real) { x == x.Floor as real }

  /** A fan of `size` items: item `i` is in wave `i / waveSize`; an unbounded fan is a single wave. */
  datatype Plan = Plan(size: nat, waveSize: nat, maxWaves: nat) {
    predicate Valid() { 1 <= size && 1 <= waveSize && 1 <= maxWaves }

    function Count(): nat
      requires Valid()
    {
      (size + waveSize - 1) / waveSize
    }

    function WaveOf(i: nat): nat
      requires Valid()
    {
      i / waveSize
    }

    function First(k: nat): nat { k * waveSize }

    /** One past the last item of wave `k`. */
    function Past(k: nat): nat { if (k + 1) * waveSize <= size then (k + 1) * waveSize else size }

    lemma InWave(i: nat, k: nat)
      requires Valid() && i < size
      ensures WaveOf(i) == k <==> First(k) <= i < Past(k)
      ensures WaveOf(i) < Count()
    {
      Quotient(i, waveSize, k);
      Quotient(size - 1, waveSize, (size - 1) / waveSize);
      assert Count() == (size - 1) / waveSize + 1 by { Shifted(size - 1, waveSize); }
      Monotone(i, size - 1, waveSize);
    }

    lemma WaveNonEmpty(k: nat)
      requires Valid() && k < Count()
      ensures First(k) < Past(k) <= size && First(k) < size && Past(k) - First(k) <= waveSize
    {
      assert Count() == (size - 1) / waveSize + 1 by { Shifted(size - 1, waveSize); }
      Quotient(size - 1, waveSize, (size - 1) / waveSize);
      assert k * waveSize <= ((size - 1) / waveSize) * waveSize by { Product(k, (size - 1) / waveSize, waveSize); }
      assert (k + 1) * waveSize == k * waveSize + waveSize;
    }
  }

  lemma Quotient(i: nat, m: nat, k: nat)
    requires m > 0
    ensures i / m == k <==> k * m <= i < (k + 1) * m
  {
    var q := i / m;
    assert i == q * m + i % m;
    if k < q { Product(k + 1, q, m); }
    if q < k { Product(q + 1, k, m); assert (q + 1) * m == q * m + m; }
    assert (k + 1) * m == k * m + m;
  }

  lemma Product(a: nat, b: nat, m: nat)
    requires a <= b
    ensures a * m <= b * m
  {
  }

  lemma Shifted(i: nat, m: nat)
    requires m > 0
    ensures (i + m) / m == i / m + 1
  {
    Quotient(i, m, i / m);
    assert (i / m + 1) * m == (i / m) * m + m && (i / m + 2) * m == (i / m) * m + 2 * m;
    Quotient(i + m, m, i / m + 1);
  }

  lemma Monotone(i: nat, j: nat, m: nat)
    requires m > 0 && i <= j
    ensures i / m <= j / m
  {
    Quotient(i, m, i / m);
    Quotient(j, m, j / m);
    if j / m < i / m { Product(j / m + 1, i / m, m); }
  }

  /** The plan of a fan, unless its limit is rejected: without a limit that binds all of it goes out at once. */
  function PlanOf(size: nat, concurrency: Option<real>): (p: Option<Plan>)
    ensures p.Some? && size > 0 ==> p.value.Valid()
    ensures p.Some? ==> p.value.size == size
    ensures concurrency == None || (p.Some? && concurrency.value >= size as real) ==>
            p.Some? && p.value.waveSize == size
    ensures p.Some? && concurrency.Some? && concurrency.value < size as real ==>
              p.value.waveSize * p.value.maxWaves >= concurrency.value.Floor - 1
  {
    match AllWaves(size, concurrency)
    case Unbounded => Some(Plan(size, size, 1))
    case Bounded(w) => Some(Plan(size, w.waveSize, w.maxWaves))
    case Rejected => None
  }
}

/**
 * Reading a fan's checkpoints, and folding a settled wave of it into one checkpoint. The block is
 * indexed from the fan's first position.
 */
module FanFold {
  import opened Common
  import opened FanPlan

  /**
   * A checkpoint of the block. `Fold` is a folded checkpoint, `Malformed` one whose output is not a
   * fold's; `Expanded` is the completed checkpoint a fold stands for, still under the fold's name.
   */
  datatype Cell = Waiting | Done(completion: Completion) | Fold(from: nat, values: seq<Value>) | Malformed
    | Expanded(value: Value)

  type Block = seq<Option<Cell>>

  /** The fold at `p` stands for item `i`. */
  predicate Covers(b: Block, p: nat, i: nat) {
    p <= i && p < |b| && b[p].Some? && b[p].value.Fold? && i < p + |b[p].value.values|
  }

  /** The folds of a block are as `fan` writes them: from their own position, inside the block, apart. */
  ghost predicate Folded(b: Block) {
    forall p: nat | p < |b| && b[p].Some? && b[p].value.Fold? ::
      && b[p].value.from == p && 1 <= |b[p].value.values| && p + |b[p].value.values| <= |b|
      && forall q: nat | p < q < p + |b[p].value.values| :: !(b[q].Some? && b[q].value.Fold?)
  }

  lemma CoverUnique(b: Block, p: nat, q: nat, i: nat)
    requires Folded(b) && Covers(b, p, i) && Covers(b, q, i)
    ensures p == q
  {
  }

  /** What the fan sees at item `i`. */
  ghost function ViewAt(b: Block, i: nat): Option<Cell>
    requires i < |b|
  {
    if p: nat :| Covers(b, p, i) then Some(Expanded(b[p].value.values[i - p])) else b[i]
  }

  ghost function View(b: Block): (v: Block)
    ensures |v| == |b| && forall i: nat | i < |b| :: v[i] == ViewAt(b, i)
  {
    seq(|b|, i requires 0 <= i < |b| => ViewAt(b, i))
  }

  lemma Covered(b: Block, p: nat, i: nat)
    requires Folded(b) && Covers(b, p, i)
    ensures i < |b| && ViewAt(b, i) == Some(Expanded(b[p].value.values[i - p]))
  {
    var q: nat :| Covers(b, q, i) && ViewAt(b, i) == Some(Expanded(b[q].value.values[i - q]));
    CoverUnique(b, p, q, i);
  }

  function Settlement(c: Option<Cell>): Option<Completion> {
    match c
    case Some(Done(d)) => Some(d)
    case Some(Expanded(v)) => Some(Ok(v))
    case _ => None
  }

  /** The completion the fan reads at item `i`, if it has settled. */
  ghost function Reading(b: Block, i: nat): Option<Completion>
    requires i < |b|
  {
    Settlement(ViewAt(b, i))
  }

  // ---- expanding -----------------------------------------------------------------------------

  /** A checkpoint under a fold's name that is not a fold. */
  predicate Stray(c: Option<Cell>) { c.Some? && (c.value.Malformed? || c.value.Expanded?) }

  /** Every stray checkpoint among the first `n` is covered by a fold, or already marked as expanded. */
  ghost predicate Sound(b: Block, marks: seq<bool>, n: nat) {
    forall q: nat | q < n && q < |b| && q < |marks| :: Stray(b[q]) && !marks[q] ==> exists p: nat :: Covers(b, p, q)
  }

  /** Exactly the items under a fold gain a mark. */
  ghost predicate Marked(b: Block, marks: seq<bool>, folded: seq<bool>) {
    && |folded| == |marks| == |b|
    && forall q: nat | q < |b| :: folded[q] <==> marks[q] || exists p: nat :: Covers(b, p, q)
  }

  ghost predicate Unmarked(b: Block, marks: seq<bool>) {
    && |b| == |marks|
    && forall q: nat | q < |b| && marks[q] :: !(b[q].Some? && b[q].value.Fold?)
  }

  /**
   * `expand`: replaces every fold by the checkpoints it stands for, in place. Fails on a stray
   * checkpoint no fold covers, unless it is already marked as expanded.
   */
  method Expand(checkpoints: array<Option<Cell>>, folded: array<bool>) returns (ok: bool)
    requires checkpoints != folded as object && Unmarked(checkpoints[..], folded[..]) && Folded(checkpoints[..])
    modifies checkpoints, folded
    ensures ok <==> Sound(old(checkpoints[..]), old(folded[..]), checkpoints.Length)
    ensures ok ==>
              checkpoints[..] == View(old(checkpoints[..])) && Marked(old(checkpoints[..]), old(folded[..]), folded[..])
  {
    ghost var was, marks := checkpoints[..], folded[..];
    ghost var b, f := was, marks;
    Untouched(was, marks);
    var i := 0;
    while i < checkpoints.Length
      invariant 0 <= i <= checkpoints.Length == folded.Length == |was|
      invariant b == checkpoints[..] && f == folded[..]
      invariant ExpandedTo(was, marks, i, b, f) && Sound(was, marks, i)
    {
      AtRow(was, marks, i, b, f);
      ok := ExpandRow(checkpoints, folded, i);
      if !ok { return; }
      RowKeeps(was, marks, i, b, f, checkpoints[..], folded[..]);
      b, f := checkpoints[..], folded[..];
      i := i + 1;
    }
    Finished(was, marks, b, f);
    return true;
  }

  ghost predicate Replaced(b: Block, folded: seq<bool>, i: nat, b': Block, folded': seq<bool>) {
    && |b| == |folded| == |b'| == |folded'| && i < |b|
    && forall q: nat | q < |b| ::
         if Covers(b, i, q) then b'[q] == Some(Expanded(b[i].value.values[q - i])) && folded'[q]
         else b'[q] == b[q] && folded'[q] == folded[q]
  }

  /** Expands the fold at `i`. */
  method Replace(checkpoints: array<Option<Cell>>, folded: array<bool>, i: nat)
    requires checkpoints != folded as object && checkpoints.Length == folded.Length && i < checkpoints.Length
    requires checkpoints[i].Some? && checkpoints[i].value.Fold?
    requires checkpoints[i].value.from == i && i + |checkpoints[i].value.values| <= checkpoints.Length
    modifies checkpoints, folded
    ensures Replaced(old(checkpoints[..]), old(folded[..]), i, checkpoints[..], folded[..])
  {
    var from, values := checkpoints[i].value.from, checkpoints[i].value.values;
    var j := 0;
    while j < |values|
      invariant 0 <= j <= |values|
      invariant forall q: nat | q < checkpoints.Length ::
                  if i <= q < i + j then checkpoints[q] == Some(Expanded(values[q - i])) && folded[q]
                  else checkpoints[q] == old(checkpoints[q]) && folded[q] == old(folded[q])
    {
      checkpoints[from + j] := Some(Expanded(values[j]));
      folded[from + j] := true;
      j := j + 1;
    }
  }

  /** One row of `expand`. */
  method ExpandRow(checkpoints: array<Option<Cell>>, folded: array<bool>, i: nat) returns (ok: bool)
    requires checkpoints != folded as object && checkpoints.Length == folded.Length && i < checkpoints.Length
    requires checkpoints[i].Some? && checkpoints[i].value.Fold? ==>
               !folded[i] && checkpoints[i].value.from == i && i + |checkpoints[i].value.values| <= checkpoints.Length
    modifies checkpoints, folded
    ensures ok <==> !(Stray(old(checkpoints[i])) && !old(folded[i]))
    ensures ok ==> Replaced(old(checkpoints[..]), old(folded[..]), i, checkpoints[..], folded[..])
  {
    if checkpoints[i].Some? && !folded[i] {
      if checkpoints[i].value.Malformed? || checkpoints[i].value.Expanded? {
        return false;
      }
      if checkpoints[i].value.Fold? {
        Replace(checkpoints, folded, i);
      }
    }
    return true;
  }

  /** The folds before `n` have been expanded, and nothing else has changed. */
  ghost predicate ExpandedTo(was: Block, marks: seq<bool>, n: nat, b: Block, folded: seq<bool>) {
    && |was| == |marks| == |b| == |folded|
    && forall q: nat | q < |was| :: b[q] == Part(was, n, q) && (folded[q] <==> marks[q] || CoveredBelow(was, n, q))
  }

  lemma Untouched(was: Block, marks: seq<bool>)
    requires |was| == |marks|
    ensures ExpandedTo(was, marks, 0, was, marks)
  {
  }

  lemma Finished(was: Block, marks: seq<bool>, b: Block, folded: seq<bool>)
    requires Folded(was) && ExpandedTo(was, marks, |was|, b, folded)
    ensures b == View(was) && Marked(was, marks, folded)
  {
    PartWhole(was);
  }

  /** What the loop finds at row `i`. */
  lemma AtRow(was: Block, marks: seq<bool>, i: nat, b: Block, folded: seq<bool>)
    requires Folded(was) && ExpandedTo(was, marks, i, b, folded) && i < |was| && Unmarked(was, marks)
             && Sound(was, marks, i)
    ensures b[i].Some? && b[i].value.Fold? ==>
              b[i] == was[i] && !folded[i] && b[i].value.from == i && i + |b[i].value.values| <= |b|
    ensures Sound(was, marks, i + 1) <==> !(Stray(b[i]) && !folded[i])
    ensures Stray(b[i]) && !folded[i] ==> !Sound(was, marks, |was|)
    ensures b[i] == was[i] || CoveredBelow(was, i, i)
  {
    PartStep(was, i);
  }

  /** One row of the loop. */
  lemma RowKeeps(was: Block, marks: seq<bool>, i: nat, b: Block, folded: seq<bool>, b': Block, folded': seq<bool>)
    requires Folded(was) && ExpandedTo(was, marks, i, b, folded) && i < |was| == |b'| == |folded'|
    requires b[i].Some? && b[i].value.Fold? ==> b[i] == was[i]
    requires b[i] == was[i] || CoveredBelow(was, i, i)
    requires Replaced(b, folded, i, b', folded')
    ensures ExpandedTo(was, marks, i + 1, b', folded')
  {
    PartStep(was, i);
    forall q: nat | q < |was| ensures Covers(b, i, q) <==> Covers(was, i, q) {
    }
  }

  ghost predicate CoveredBelow(b: Block, n: nat, q: nat) { exists p: nat :: p < n && Covers(b, p, q) }

  /** The view in which only the folds before `n` are expanded. */
  ghost function Part(b: Block, n: nat, q: nat): Option<Cell>
    requires q < |b|
  {
    if p: nat :| p < n && Covers(b, p, q) then Some(Expanded(b[p].value.values[q - p])) else b[q]
  }

  lemma PartStep(b: Block, i: nat)
    requires Folded(b) && i < |b|
    ensures forall q: nat | q < |b| ::
              && Part(b, i + 1, q) == (if Covers(b, i, q) then Some(Expanded(b[i].value.values[q - i]))
                   else Part(b, i, q))
              && (CoveredBelow(b, i + 1, q) <==> Covers(b, i, q) || CoveredBelow(b, i, q))
    ensures b[i].Some? && b[i].value.Fold? ==> !CoveredBelow(b, i, i)
    ensures CoveredBelow(b, i, i) ==> Part(b, i, i).Some? && Part(b, i, i).value.Expanded?
    ensures !CoveredBelow(b, i, i) ==> Part(b, i, i) == b[i]
    ensures b[i].Some? && !b[i].value.Fold? ==> ((exists p: nat :: Covers(b, p, i)) <==> CoveredBelow(b, i, i))
  {
    forall q: nat | q < |b|
      ensures Part(b, i + 1, q) == (if Covers(b, i, q) then Some(Expanded(b[i].value.values[q - i])) else Part(b, i, q))
    {
      PartStepAt(b, i, q);
    }
  }

  lemma PartStepAt(b: Block, i: nat, q: nat)
    requires Folded(b) && i < |b| && q < |b|
    ensures Part(b, i + 1, q) == (if Covers(b, i, q) then Some(Expanded(b[i].value.values[q - i])) else Part(b, i, q))
  {
    if CoveredBelow(b, i + 1, q) {
      var p: nat :| p < i + 1 && Covers(b, p, q) && Part(b, i + 1, q) == Some(Expanded(b[p].value.values[q - p]));
      if Covers(b, i, q) {
        CoverUnique(b, p, i, q);
      } else {
        var p': nat :| p' < i && Covers(b, p', q) && Part(b, i, q) == Some(Expanded(b[p'].value.values[q - p']));
        CoverUnique(b, p, p', q);
      }
    }
  }

  lemma PartWhole(b: Block)
    requires Folded(b)
    ensures forall q: nat | q < |b| :: Part(b, |b|, q) == ViewAt(b, q)
    ensures forall q: nat | q < |b| :: CoveredBelow(b, |b|, q) <==> exists p: nat :: Covers(b, p, q)
  {
    forall q: nat | q < |b| ensures Part(b, |b|, q) == ViewAt(b, q) {
      if CoveredBelow(b, |b|, q) {
        var p: nat :| p < |b| && Covers(b, p, q) && Part(b, |b|, q) == Some(Expanded(b[p].value.values[q - p]));
        Covered(b, p, q);
      }
    }
  }

  // ---- reading the fan -----------------------------------------------------------------------

  /** The rows of `a`, and those of `live` where `a` has none. */
  function Merged(a: Block, live: Block): (m: Block)
    requires |a| == |live|
    ensures |m| == |a|
  {
    seq(|a|, i requires 0 <= i < |a| => if a[i].Some? then a[i] else live[i])
  }

  lemma ViewHasNoFolds(b: Block)
    requires Folded(b)
    ensures forall i: nat | i < |b| :: !(View(b)[i].Some? && View(b)[i].value.Fold?)
    ensures View(View(b)) == View(b)
  {
    forall i: nat | i < |b| ensures !(View(b)[i].Some? && View(b)[i].value.Fold?) {
      if b[i].Some? && b[i].value.Fold? { Covered(b, i, i); }
    }
  }

  lemma MergedFolded(b: Block, live: Block)
    requires Folded(b) && Folded(live) && |b| == |live|
    ensures Folded(Merged(View(b), live))
  {
    ViewHasNoFolds(b);
  }

  /** Fills in the rows that are missing; `missing` says whether any was. */
  method ReadMissing(checkpoints: array<Option<Cell>>, live: Block) returns (missing: bool)
    requires checkpoints.Length == |live|
    modifies checkpoints
    ensures checkpoints[..] == Merged(old(checkpoints[..]), live)
    ensures !missing ==> checkpoints[..] == old(checkpoints[..])
  {
    var i := 0;
    missing := false;
    while i < checkpoints.Length
      invariant 0 <= i <= checkpoints.Length
      invariant forall q: nat | q < checkpoints.Length ::
                  checkpoints[q] == if q < i && old(checkpoints[q]) == None then live[q] else old(checkpoints[q])
      invariant !missing ==> forall q: nat | q < i :: old(checkpoints[q]).Some?
    {
      if checkpoints[i] == None {
        checkpoints[i] := live[i];
        missing := true;
      }
      i := i + 1;
    }
  }

  /** No item is marked as expanded yet. */
  function Fresh(n: nat): seq<bool> { seq(n, _ => false) }

  /**
   * What `readFan` shows: the snapshot's rows expanded, then the rows it lacks read live and
   * expanded too.
   */
  ghost function Seen(replay: Block, live: Block): (v: Block)
    requires |replay| == |live|
    ensures |v| == |replay|
  {
    View(Merged(View(replay), live))
  }

  method ReadFan(replay: Block, live: Block) returns (ok: bool, checkpoints: array<Option<Cell>>, folded: array<bool>)
    requires Folded(replay) && Folded(live) && |replay| == |live|
    ensures fresh(checkpoints) && fresh(folded) && checkpoints != folded as object
    ensures ok ==> checkpoints[..] == Seen(replay, live)
    ensures ok ==> exists marks ::
                     Marked(replay, Fresh(|replay|), marks) && Marked(Merged(View(replay), live), marks, folded[..])
    ensures !ok ==> !Sound(replay, Fresh(|replay|), |replay|) || exists i: nat :: i < |live| && Stray(live[i])
  {
    checkpoints := new Option<Cell>[|replay|](i requires 0 <= i < |replay| => replay[i]);
    folded := new bool[|replay|](_ => false);
    assert checkpoints[..] == replay && folded[..] == Fresh(|replay|);
    ok := Expand(checkpoints, folded);
    if !ok { return; }
    ghost var marks := folded[..];
    SecondPass(replay, live, marks);
    var missing := ReadMissing(checkpoints, live);
    if missing {
      ok := Expand(checkpoints, folded);
    }
  }

  lemma SecondPass(b: Block, live: Block, marks: seq<bool>)
    requires Folded(b) && Folded(live) && |b| == |live| && Marked(b, Fresh(|b|), marks) && Sound(b, Fresh(|b|), |b|)
    ensures Folded(Merged(View(b), live)) && Unmarked(Merged(View(b), live), marks)
    ensures Merged(View(b), live) == View(b) ==> Seen(b, live) == View(b) && Marked(Merged(View(b), live), marks, marks)
    ensures Sound(Merged(View(b), live), marks, |b|) || exists i: nat :: i < |live| && Stray(live[i])
  {
    MergedFolded(b, live);
    MarksStay(b, live, marks);
    ViewHasNoFolds(b);
    var m := Merged(View(b), live);
    forall q: nat | q < |b| && Stray(m[q]) && !marks[q] ensures Stray(live[q]) {
      assert !exists p: nat :: Covers(b, p, q);
      assert View(b)[q] == b[q];
    }
  }

  lemma MarksStay(b: Block, live: Block, marks: seq<bool>)
    requires Folded(b) && Folded(live) && |b| == |live| && Marked(b, Fresh(|b|), marks)
    ensures Unmarked(Merged(View(b), live), marks)
  {
    forall q: nat | q < |b| && marks[q] ensures View(b)[q].Some? && View(b)[q].value.Expanded? {
      var p: nat :| Covers(b, p, q);
      Covered(b, p, q);
    }
  }

  // ---- folding -------------------------------------------------------------------------------

  /** `compactCheckpoints`: the rows `first..past` replaced by one fold at `first`. */
  function Compact(b: Block, first: nat, past: nat, values: seq<Value>): (c: Block)
    requires first < past <= |b|
    ensures |c| == |b|
  {
    seq(|b|, i requires 0 <= i < |b| =>
      if i == first then Some(Fold(first, values)) else if first < i < past then None else b[i])
  }

  /** Every fold stands for one whole wave of the plan. */
  ghost predicate OnWaves(plan: Plan, b: Block) {
    && plan.Valid() && |b| == plan.size
    && forall p: nat | p < |b| && b[p].Some? && b[p].value.Fold? ::
         && b[p].value.from == p == plan.First(plan.WaveOf(p))
         && p + |b[p].value.values| == plan.Past(plan.WaveOf(p))
  }

  lemma OnWavesFolded(plan: Plan, b: Block)
    requires OnWaves(plan, b)
    ensures Folded(b)
  {
    forall p: nat | p < |b| && b[p].Some? && b[p].value.Fold?
      ensures 1 <= |b[p].value.values| && p + |b[p].value.values| <= |b|
      ensures forall q: nat | p < q < p + |b[p].value.values| :: !(b[q].Some? && b[q].value.Fold?)
    {
      plan.InWave(p, plan.WaveOf(p));
      plan.WaveNonEmpty(plan.WaveOf(p));
      forall q: nat | p < q < p + |b[p].value.values| ensures !(b[q].Some? && b[q].value.Fold?) {
        plan.InWave(q, plan.WaveOf(p));
      }
    }
  }

  /** The view shows every child of wave `k` settled with success. */
  predicate Successful(plan: Plan, v: Block, k: nat)
    requires plan.Valid() && |v| == plan.size && k < plan.Count()
  {
    plan.WaveNonEmpty(k);
    forall i: nat | plan.First(k) <= i < plan.Past(k) :: Settlement(v[i]).Some? && Settlement(v[i]).value.Ok?
  }

  function ValuesOf(plan: Plan, v: Block, k: nat): (values: seq<Value>)
    requires plan.Valid() && |v| == plan.size && k < plan.Count() && Successful(plan, v, k)
    ensures |values| == plan.Past(k) - plan.First(k)
  {
    plan.WaveNonEmpty(k);
    seq(plan.Past(k) - plan.First(k),
        j requires 0 <= j < plan.Past(k) - plan.First(k) => Settlement(v[plan.First(k) + j]).value.value)
  }

  /** One wave of the folding loop: folded when every child succeeded, unless it already is. */
  function FoldWave(plan: Plan, b: Block, v: Block, k: nat): (c: Block)
    requires plan.Valid() && |b| == |v| == plan.size && k < plan.Count()
    ensures |c| == |b|
  {
    plan.WaveNonEmpty(k);
    var first := plan.First(k);
    if v[first].Some? && v[first].value.Expanded? then b
    else if Successful(plan, v, k) then Compact(b, first, plan.Past(k), ValuesOf(plan, v, k)) else b
  }

  /** The waves `ks` folded, in that order. */
  function FoldWaves(plan: Plan, b: Block, v: Block, ks: seq<nat>): (c: Block)
    requires plan.Valid() && |b| == |v| == plan.size && forall j | 0 <= j < |ks| :: ks[j] < plan.Count()
    ensures |c| == |b|
  {
    if ks == [] then b
    else FoldWave(plan, FoldWaves(plan, b, v, ks[..|ks| - 1]), v, ks[|ks| - 1])
  }

  /** Every item reads back the same completion, and the same items have a checkpoint. */
  ghost predicate SameReadings(b: Block, c: Block) {
    && |b| == |c|
    && forall i: nat | i < |b| :: Reading(c, i) == Reading(b, i) && (ViewAt(c, i).Some? <==> ViewAt(b, i).Some?)
  }

  /** Folding one fully successful wave leaves every reading as it was. */
  lemma CompactTransparent(plan: Plan, b: Block, k: nat, values: seq<Value>)
    requires OnWaves(plan, b) && k < plan.Count()
    requires |values| == plan.Past(k) - plan.First(k)
    requires plan.First(k) < plan.Past(k) <= plan.size
    requires forall i: nat | plan.First(k) <= i < plan.Past(k) :: Reading(b, i) == Some(Ok(values[i - plan.First(k)]))
    ensures var c := Compact(b, plan.First(k), plan.Past(k), values);
            OnWaves(plan, c) && SameReadings(b, c)
  {
    var first := plan.First(k);
    var c := Compact(b, first, plan.Past(k), values);
    plan.InWave(first, k);
    OnWavesFolded(plan, b);
    OnWavesFolded(plan, c);
    forall i: nat | i < |b| ensures Reading(c, i) == Reading(b, i) && (ViewAt(c, i).Some? <==> ViewAt(b, i).Some?) {
      plan.InWave(i, k);
      if plan.WaveOf(i) == k {
        Covered(c, first, i);
      } else {
        Elsewhere(plan, b, c, k, i);
      }
    }
  }

  lemma Elsewhere(plan: Plan, b: Block, c: Block, k: nat, i: nat)
    requires OnWaves(plan, b) && OnWaves(plan, c) && k < plan.Count() && i < |b| == |c| && plan.WaveOf(i) != k
    requires forall q: nat | q < |b| && !(plan.First(k) <= q < plan.Past(k)) :: b[q] == c[q]
    requires Folded(b) && Folded(c)
    ensures ViewAt(b, i) == ViewAt(c, i)
  {
    plan.InWave(i, k);
    forall p: nat ensures Covers(b, p, i) <==> Covers(c, p, i) {
      if Covers(b, p, i) { CoverInWave(plan, b, p, i); plan.InWave(p, k); }
      if Covers(c, p, i) { CoverInWave(plan, c, p, i); plan.InWave(p, k); }
    }
    if p: nat :| Covers(b, p, i) {
      Covered(b, p, i);
      Covered(c, p, i);
      CoverInWave(plan, b, p, i);
      plan.InWave(p, k);
    }
  }

  lemma CoverInWave(plan: Plan, b: Block, p: nat, i: nat)
    requires OnWaves(plan, b) && Covers(b, p, i)
    ensures i < plan.size && plan.WaveOf(i) == plan.WaveOf(p)
  {
    OnWavesFolded(plan, b);
    plan.InWave(p, plan.WaveOf(p));
    plan.InWave(i, plan.WaveOf(p));
  }

  lemma FoldWaveTransparent(plan: Plan, b: Block, v: Block, k: nat)
    requires OnWaves(plan, b) && |v| == plan.size && k < plan.Count()
    requires forall i: nat | i < |b| :: Reading(b, i) == Settlement(v[i])
    ensures var c := FoldWave(plan, b, v, k);
            OnWaves(plan, c) && SameReadings(b, c)
  {
    plan.WaveNonEmpty(k);
    if Successful(plan, v, k) {
      CompactTransparent(plan, b, k, ValuesOf(plan, v, k));
    }
  }

  /**
   * Fold transparency: whatever set of waves the loop folds, from a view that agrees with the
   * journal, every item reads back the completion it had, so the waves' settlement, the outputs and
   * the failures are unchanged.
   */
  lemma {:induction false} FoldTransparent(plan: Plan, b: Block, v: Block, ks: seq<nat>)
    requires OnWaves(plan, b) && |v| == plan.size
    requires forall i: nat | i < |b| :: Reading(b, i) == Settlement(v[i])
    requires forall j | 0 <= j < |ks| :: ks[j] < plan.Count()
    ensures var c := FoldWaves(plan, b, v, ks);
            OnWaves(plan, c) && SameReadings(b, c)
  {
    if ks != [] {
      FoldTransparent(plan, b, v, ks[..|ks| - 1]);
      FoldWaveTransparent(plan, FoldWaves(plan, b, v, ks[..|ks| - 1]), v, ks[|ks| - 1]);
    }
  }

  /** The store's `compactCheckpoints`, in place. */
  method CompactCheckpoints(journal: array<Option<Cell>>, first: nat, past: nat, into: Cell)
    requires first < past <= journal.Length && into.Fold? && into.from == first
    modifies journal
    ensures journal[..] == Compact(old(journal[..]), first, past, into.values)
  {
    var i := first;
    while i < past
      invariant first <= i <= past
      invariant forall q: nat | q < journal.Length :: journal[q] == if first <= q < i then None else old(journal[q])
    {
      journal[i] := None;
      i := i + 1;
    }
    journal[first] := Some(into);
  }

  /** The values of a wave's children up to the first that has not succeeded. */
  method ValuesUntilFailure(plan: Plan, existing: Block, k: nat) returns (values: seq<Value>)
    requires plan.Valid() && |existing| == plan.size && k < plan.Count()
    ensures |values| == plan.Past(k) - plan.First(k) <==> Successful(plan, existing, k)
    ensures Successful(plan, existing, k) ==> values == ValuesOf(plan, existing, k)
  {
    plan.WaveNonEmpty(k);
    values := [];
    var i := plan.First(k);
    while i < plan.Past(k)
      invariant plan.First(k) <= i <= plan.Past(k) && |values| == i - plan.First(k)
      invariant forall q: nat | plan.First(k) <= q < i :: Settlement(existing[q]) == Some(Ok(values[q - plan.First(k)]))
    {
      match Settlement(existing[i]) {
        case Some(Ok(v)) => values := values + [v];
        case _ => return;
      }
      i := i + 1;
    }
  }

  /** The folding loop of `fan`: the store and the snapshot are folded alike. */
  method FoldSettled(plan: Plan, journal: array<Option<Cell>>, replay: array<Option<Cell>>, existing: Block)
    requires plan.Valid() && journal.Length == replay.Length == |existing| == plan.size && journal != replay
    modifies journal, replay
    ensures journal[..] == FoldWaves(plan, old(journal[..]), existing, seq(plan.Count(), k => k))
    ensures replay[..] == FoldWaves(plan, old(replay[..]), existing, seq(plan.Count(), k => k))
  {
    var k := 0;
    while k < plan.Count()
      invariant 0 <= k <= plan.Count()
      invariant journal[..] == FoldWaves(plan, old(journal[..]), existing, seq(k, j => j))
      invariant replay[..] == FoldWaves(plan, old(replay[..]), existing, seq(k, j => j))
    {
      plan.WaveNonEmpty(k);
      assert seq(k + 1, j => j)[..k] == seq(k, j => j);
      var first := plan.First(k);
      var folded := existing[first].Some? && existing[first].value.Expanded?;
      if !folded {
        var values := ValuesUntilFailure(plan, existing, k);
        if |values| == plan.Past(k) - first {
          CompactCheckpoints(journal, first, plan.Past(k), Fold(first, values));
          CompactCheckpoints(replay, first, plan.Past(k), Fold(first, values));
        }
      }
      k := k + 1;
    }
  }
}
