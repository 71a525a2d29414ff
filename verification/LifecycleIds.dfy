/**
 * The ids and tokens that link runs: the run a lifecycle event starts, the waiter of `ctx.waitForRun`,
 * and the continue-as-new chain.
 */
module LifecycleIds {
  import opened Common
  import opened Text

  // ---- runs a lifecycle event starts ---------------------------------------------------------

  datatype Ending = Completes | Fails

  function EndingName(kind: Ending): string { if kind == Completes then "completed" else "failed" }

  function Suffix(kind: Ending, subscriber: string): string { ":" + (EndingName(kind) + (":" + subscriber)) }

  function LifecycleRunId(source: string, kind: Ending, subscriber: string): string {
    "evt:" + (source + Suffix(kind, subscriber))
  }

  /** One turn of the loop of `lifecycleSourceOf`. */
  function SourceAs(id: string, workflow: string, kind: Ending): Option<string> {
    var suffix := Suffix(kind, workflow);
    if Ends(id, suffix) && |id| > 4 + |suffix| then Some(id[4..|id| - |suffix|]) else None
  }

  /** `lifecycleSourceOf`. */
  function LifecycleSourceOf(id: string, workflow: string): Option<(string, Ending)> {
    if !Starts(id, "evt:") then None
    else if SourceAs(id, workflow, Completes).Some? then Some((SourceAs(id, workflow, Completes).value, Completes))
    else if SourceAs(id, workflow, Fails).Some? then Some((SourceAs(id, workflow, Fails).value, Fails))
    else None
  }

  /** The two endings never end the same id. */
  lemma SuffixesDiffer(s: string, workflow: string)
    ensures !(Ends(s, Suffix(Completes, workflow)) && Ends(s, Suffix(Fails, workflow)))
  {
    var a, b := Suffix(Completes, workflow), Suffix(Fails, workflow);
    assert a[7] == 't' && b[4] == 'l' && |a| - 7 == |b| - 4;
    assert Ends(s, a) ==> s[|s| - |a|..][7] == 't';
    assert Ends(s, b) ==> s[|s| - |b|..][4] == 'l';
  }

  lemma Assembled(source: string, suffix: string)
    ensures var id := "evt:" + (source + suffix);
            && Starts(id, "evt:") && Ends(id, suffix) && |id| == 4 + |source| + |suffix|
               && id[4..|id| - |suffix|] == source
  {
  }

  lemma TakenApart(id: string, suffix: string)
    requires Starts(id, "evt:") && Ends(id, suffix) && |id| > 4 + |suffix|
    ensures id == "evt:" + (id[4..|id| - |suffix|] + suffix)
  {
    var k := |id| - |suffix|;
    assert id == id[..4] + (id[4..k] + id[k..]);
  }

  /**
   * A run's id names the run whose settling started it exactly when it was minted for that run: the
   * id of the source may hold the separators, but must not be empty.
   */
  lemma LifecycleSourceIff(id: string, workflow: string, source: string, kind: Ending)
    ensures LifecycleSourceOf(id, workflow) == Some((source, kind)) <==>
              source != "" && id == LifecycleRunId(source, kind, workflow)
  {
    var suffix := Suffix(kind, workflow);
    SuffixesDiffer(id, workflow);
    if source != "" && id == LifecycleRunId(source, kind, workflow) {
      Assembled(source, suffix);
    }
    if LifecycleSourceOf(id, workflow) == Some((source, kind)) {
      TakenApart(id, suffix);
    }
  }

  // ---- waiting for a run ---------------------------------------------------------------------

  function WaitSuffix(runId: string, at: nat): string { "#" + (runId + ("#" + Decimal(at))) }

  function RunWaitToken(target: string, runId: string, at: nat): string {
    "runwait:" + (target + WaitSuffix(runId, at))
  }

  /** `slice(from, -drop)`: empty when the ends cross. */
  function Inner(s: string, from: nat, drop: nat): string { if from + drop <= |s| then s[from..|s| - drop] else "" }

  /** `runWaitTargetOf`. */
  function RunWaitTargetOf(token: string, runId: string, at: nat): Option<string> {
    var suffix := WaitSuffix(runId, at);
    if !Starts(token, "runwait:") || !Ends(token, suffix) || Inner(token, 8, |suffix|) == "" then None
    else Some(Inner(token, 8, |suffix|))
  }

  /** A waiter's token names its target exactly when it was minted for that target and that call. */
  lemma RunWaitTargetIff(token: string, runId: string, at: nat, target: string)
    ensures RunWaitTargetOf(token, runId, at) == Some(target) <==>
              target != "" && token == RunWaitToken(target, runId, at)
  {
    var suffix := WaitSuffix(runId, at);
    if target != "" && token == RunWaitToken(target, runId, at) {
      assert token[..8] == "runwait:" && token[8 + |target|..] == suffix && token[8..8 + |target|] == target;
    }
    if RunWaitTargetOf(token, runId, at) == Some(target) {
      var k := |token| - |suffix|;
      assert token == token[..8] + (token[8..k] + token[k..]);
    }
  }

  // ---- the continue-as-new chain -------------------------------------------------------------

  const MAX_HOPS := 100

  function Numbered(base: string, n: nat): string { base + ("~" + Decimal(n)) }

  /** How many digits end the id. */
  function TailSpan(s: string): (n: nat)
    ensures n <= |s| && (forall i | |s| - n <= i < |s| :: Digit(s[i])) && (n < |s| ==> !Digit(s[|s| - n - 1]))
  {
    if s == "" || !Digit(s[|s| - 1]) then 0
    else
      assert (forall i | 0 <= i < |s| - 1 :: s[i] == s[..|s| - 1][i]);
      TailSpan(s[..|s| - 1]) + 1
  }

  /** `/^(.*)~(\d+)$/`: the base and the digits. */
  function Link(s: string): (l: Option<(string, string)>)
    ensures l.Some? ==> Digits(l.value.1)
  {
    var n := TailSpan(s);
    if 0 < n < |s| && s[|s| - n - 1] == '~' && Clean(s[..|s| - n - 1]) then
      Some((s[..|s| - n - 1], s[|s| - n..])) else None
  }

  /** `nextContinuationId`. */
  function NextId(runId: string): string {
    match Link(runId)
    case Some((base, digits)) => Numbered(base, NumberOf(digits) + 1)
    case None => Numbered(runId, 1)
  }

  /** The id of the `k`-th continuation of a run. */
  function Continuation(runId: string, k: nat): string { if k == 0 then runId else NextId(Continuation(runId, k - 1)) }

  function ChainId(base: string, i: nat): string { if i == 0 then base else Numbered(base, i) }

  function Lowest(n: nat): nat { if n < MAX_HOPS then 0 else n - MAX_HOPS }

  function Names(base: string): nat -> string { (i: nat) => ChainId(base, i) }

  /** The values of `f` from `low` up to `high`. */
  function Range<T>(f: nat -> T, low: nat, high: nat): seq<T>
    requires low <= high
  {
    seq(high - low, j requires 0 <= j < high - low => f(low + j))
  }

  lemma RangeGrows<T>(f: nat -> T, low: nat, i: nat)
    requires low <= i
    ensures Range(f, low, i + 1) == Range(f, low, i) + [f(i)]
  {
  }

  lemma InRange<T>(f: nat -> T, low: nat, high: nat, x: T) returns (i: nat)
    requires low <= high && x in Range(f, low, high)
    ensures low <= i < high && f(i) == x
  {
    var j :| 0 <= j < high - low && Range(f, low, high)[j] == x;
    i := low + j;
  }

  lemma RangeHas<T>(f: nat -> T, low: nat, high: nat, i: nat)
    requires low <= i < high
    ensures f(i) in Range(f, low, high)
  {
    assert Range(f, low, high)[i - low] == f(i);
  }

  function Predecessors(runId: string): seq<string> {
    match Link(runId)
    case None => []
    case Some((base, digits)) => Range(Names(base), Lowest(NumberOf(digits)), NumberOf(digits))
  }

  /** `chainPredecessorsOf`. */
  method ChainPredecessorsOf(runId: string) returns (ids: seq<string>)
    ensures ids == Predecessors(runId)
  {
    match Link(runId)
    case None => ids := [];
    case Some((base, digits)) => ids := Earlier(base, NumberOf(digits));
  }

  /** The loop of `chainPredecessorsOf`. */
  method Earlier(base: string, n: nat) returns (ids: seq<string>)
    ensures ids == Range(Names(base), Lowest(n), n)
  {
    ids := [];
    var i := Lowest(n);
    while i < n
      invariant Lowest(n) <= i <= n && ids == Range(Names(base), Lowest(n), i)
    {
      RangeGrows(Names(base), Lowest(n), i);
      ids := ids + [if i == 0 then base else Numbered(base, i)];
      i := i + 1;
    }
  }

  lemma TailSpanIs(s: string, n: nat)
    requires n <= |s| && (forall i | |s| - n <= i < |s| :: Digit(s[i])) && (n < |s| ==> !Digit(s[|s| - n - 1]))
    ensures TailSpan(s) == n
  {
  }

  lemma LinkOfNumbered(base: string, digits: string)
    requires Digits(digits)
    ensures Link(base + ("~" + digits)) == if Clean(base) then Some((base, digits)) else None
  {
    var s := base + ("~" + digits);
    assert s[|base|] == '~' && s[..|base|] == base && s[|base| + 1..] == digits;
    assert forall i | |base| + 1 <= i < |s| :: s[i] == digits[i - |base| - 1];
    TailSpanIs(s, |digits|);
  }

  lemma NextOfNumbered(base: string, n: nat)
    ensures NextId(Numbered(base, n)) == if Clean(base) then Numbered(base, n + 1) else Numbered(Numbered(base, n), 1)
  {
    DecimalRound(n);
    LinkOfNumbered(base, Decimal(n));
  }

  /** The chain a run is part of: its base, and its place in it. */
  function BaseOf(runId: string): string { match Link(runId) case Some((base, _)) => base case None => runId }
  function PlaceOf(runId: string): nat { match Link(runId) case Some((_, digits)) => NumberOf(digits) case None => 0 }

  lemma LinkClean(runId: string)
    ensures Link(runId).Some? ==> Clean(BaseOf(runId)) && runId == BaseOf(runId) + ("~" + Link(runId).value.1)
  {
    if Link(runId).Some? {
      var k := |runId| - TailSpan(runId) - 1;
      assert runId == runId[..k] + (runId[k..k + 1] + runId[k + 1..]);
      assert runId[k..k + 1] == "~";
    }
  }

  lemma {:induction false} ContinuationIs(runId: string, k: nat)
    requires k > 0 && Clean(BaseOf(runId))
    ensures Continuation(runId, k) == Numbered(BaseOf(runId), PlaceOf(runId) + k)
  {
    if k == 1 {
      assert Continuation(runId, 0) == runId;
    } else {
      ContinuationIs(runId, k - 1);
      NextOfNumbered(BaseOf(runId), PlaceOf(runId) + k - 1);
    }
  }

  /** What a line terminator in the base does: no continuation is ever recognised as one. */
  lemma {:induction false} UncleanContinuation(runId: string, k: nat)
    requires k > 0 && !Clean(BaseOf(runId))
    ensures Link(Continuation(runId, k)) == None && !Clean(Continuation(runId, k))
  {
    LinkClean(runId);
    var before := Continuation(runId, k - 1);
    if k > 1 { UncleanContinuation(runId, k - 1); }
    DecimalRound(1);
    var i :| 0 <= i < |before| && LineEnd(before[i]);
    LinkOfNumbered(before, Decimal(1));
    assert Continuation(runId, k)[i] == before[i];
  }

  /** The ids the chain itself gives: a base, or a base and a number of at least one without leading zeros. */
  predicate Canonical(runId: string) { runId == ChainId(BaseOf(runId), PlaceOf(runId)) }

  /** An id with a padded or zero number is no id of its chain. */
  lemma OnlyCanonical(runId: string, i: nat)
    requires runId == ChainId(BaseOf(runId), i)
    ensures Canonical(runId) && i == PlaceOf(runId)
  {
    LinkClean(runId);
    if i > 0 {
      DecimalRound(i);
      LinkOfNumbered(BaseOf(runId), Decimal(i));
    }
  }

  lemma InOwnChain(runId: string, low: nat, high: nat)
    requires low <= high
    ensures runId in Range(Names(BaseOf(runId)), low, high) <==> Canonical(runId) && low <= PlaceOf(runId) < high
  {
    var f := Names(BaseOf(runId));
    if runId in Range(f, low, high) {
      var i := InRange(f, low, high, runId);
      OnlyCanonical(runId, i);
    }
    if Canonical(runId) && low <= PlaceOf(runId) < high { RangeHas(f, low, high, PlaceOf(runId)); }
  }

  lemma PredecessorsAre(runId: string, k: nat)
    requires k > 0 && Clean(BaseOf(runId))
    ensures var n := PlaceOf(runId);
            Predecessors(Continuation(runId, k)) == Range(Names(BaseOf(runId)), Lowest(n + k), n + k)
  {
    var n := PlaceOf(runId);
    ContinuationIs(runId, k);
    DecimalRound(n + k);
    LinkOfNumbered(BaseOf(runId), Decimal(n + k));
  }

  lemma CleanPredecessors(runId: string, ids: seq<string>, k: nat)
    requires k > 0 && ids == Range(Names(BaseOf(runId)), Lowest(PlaceOf(runId) + k), PlaceOf(runId) + k)
    ensures runId in ids <==> k <= 100 && Canonical(runId)
  {
    InOwnChain(runId, Lowest(PlaceOf(runId) + k), PlaceOf(runId) + k);
  }

  /**
   * A run is among the predecessors of its `k`-th continuation exactly when `k` is at most 100, its
   * base holds no line terminator, and its own number, if it has one, is at least 1 and canonical.
   */
  lemma PredecessorIff(runId: string, k: nat)
    requires k > 0
    ensures runId in Predecessors(Continuation(runId, k)) <==> k <= 100 && Clean(BaseOf(runId)) && Canonical(runId)
  {
    if Clean(BaseOf(runId)) {
      PredecessorsAre(runId, k);
      CleanPredecessors(runId, Predecessors(Continuation(runId, k)), k);
    } else {
      UncleanContinuation(runId, k);
    }
  }

  lemma BaseIsCanonical(base: string)
    requires Link(base) == None
    ensures BaseOf(base) == base && PlaceOf(base) == 0 && Canonical(base)
  {
  }

  /** For a run that does not itself end in `~` and digits. */
  lemma BasePredecessor(base: string, k: nat)
    requires Clean(base) && Link(base) == None && 1 <= k <= MAX_HOPS
    ensures base in Predecessors(Continuation(base, k))
  {
    BaseIsCanonical(base);
    PredecessorIff(base, k);
  }

  // ---- the id of an entity call --------------------------------------------------------------

  function CallId(runId: string, at: nat): string { runId + (":" + Decimal(at)) }

  lemma TailOfCall(runId: string, digits: string)
    requires Digits(digits)
    ensures TailSpan(runId + (":" + digits)) == |digits|
  {
    var s := runId + (":" + digits);
    assert s[|runId|] == ':';
    assert forall i | |runId| + 1 <= i < |s| :: s[i] == digits[i - |runId| - 1];
    TailSpanIs(s, |digits|);
  }

  lemma SplitAt(a: string, b: string, c: string, d: string)
    requires a + b == c + d && |b| == |d|
    ensures a == c && b == d
  {
    assert (a + b)[..|a|] == a && (c + d)[..|c|] == c && (a + b)[|a|..] == b && (c + d)[|c|..] == d;
  }

  /** No two calls, of one run or of two, share the id an entity dedupes by. */
  lemma CallIdInjective(runId: string, at: nat, otherRun: string, otherAt: nat)
    requires CallId(runId, at) == CallId(otherRun, otherAt)
    ensures runId == otherRun && at == otherAt
  {
    DecimalRound(at);
    DecimalRound(otherAt);
    TailOfCall(runId, Decimal(at));
    TailOfCall(otherRun, Decimal(otherAt));
    SplitAt(runId, ":" + Decimal(at), otherRun, ":" + Decimal(otherAt));
    assert (":" + Decimal(at))[1..] == Decimal(at) && (":" + Decimal(otherAt))[1..] == Decimal(otherAt);
    DecimalInjective(at, otherAt);
  }

  // ---- the run that ends a chain -------------------------------------------------------------

  datatype Status = Completed | Unfinished

  /** The run `k` hops on, whatever `next` names as a run's continuation. */
  function After<Id>(next: Id -> Id, start: Id, k: nat): Id {
    if k == 0 then start else next(After(next, start, k - 1))
  }

  /** The first `hop` runs of the chain completed, and the one after them exists. */
  predicate HandedOff<Id>(store: map<Id, Status>, next: Id -> Id, start: Id, hop: nat) {
    && After(next, start, hop) in store
    && (hop > 0 ==> HandedOff(store, next, start, hop - 1) && store[After(next, start, hop - 1)] == Completed)
  }

  /** The chain goes no further: this run is unfinished, has no continuation, or is the last one followed. */
  predicate GoesNoFurther<Id>(store: map<Id, Status>, next: Id -> Id, start: Id, hop: nat)
    requires After(next, start, hop) in store
  {
    hop == MAX_HOPS || store[After(next, start, hop)] == Unfinished || After(next, start, hop + 1) !in store
  }

  /** The loop of `lastRunOfChain`: the run that ends the chain of `start`, and how many hops away it is. */
  method Follow<Id(==)>(store: map<Id, Status>, next: Id -> Id, start: Id) returns (last: Option<Id>, hops: nat)
    ensures last == None <==> start !in store
    ensures last.Some? ==> hops <= MAX_HOPS && last.value == After(next, start, hops)
                           && HandedOff(store, next, start, hops) && GoesNoFurther(store, next, start, hops)
  {
    hops := 0;
    if start !in store { return None, 0; }
    var run := start;
    while hops < MAX_HOPS && store[run] == Completed
      invariant hops <= MAX_HOPS && run in store && run == After(next, start, hops)
      invariant HandedOff(store, next, start, hops)
    {
      var n := next(run);
      if n !in store { break; }
      run, hops := n, hops + 1;
    }
    last := Some(run);
  }

  lemma {:induction false} AfterIs(runId: string, k: nat)
    ensures After(NextId, runId, k) == Continuation(runId, k)
  {
    if k > 0 { AfterIs(runId, k - 1); }
  }

  /** `lastRunOfChain`. */
  method LastRunOfChain(store: map<string, Status>, runId: string) returns (last: Option<string>, hops: nat)
    ensures last == None <==> runId !in store
    ensures last.Some? ==> hops <= 100 && last.value == Continuation(runId, hops)
                           && HandedOff(store, NextId, runId, hops) && GoesNoFurther(store, NextId, runId, hops)
  {
    last, hops := Follow(store, NextId, runId);
    AfterIs(runId, hops);
  }

  lemma {:induction false} NextHandedOff<Id>(store: map<Id, Status>, next: Id -> Id, start: Id, h: nat, g: nat)
    requires HandedOff(store, next, start, g) && h < g
    ensures After(next, start, h) in store && store[After(next, start, h)] == Completed
            && After(next, start, h + 1) in store
  {
    if h < g - 1 { NextHandedOff(store, next, start, h, g - 1); }
  }

  /** The end of a chain is one run. */
  lemma OneEnd<Id>(store: map<Id, Status>, next: Id -> Id, start: Id, h: nat, g: nat)
    requires HandedOff(store, next, start, h) && GoesNoFurther(store, next, start, h) && h <= MAX_HOPS
    requires HandedOff(store, next, start, g) && GoesNoFurther(store, next, start, g) && g <= MAX_HOPS
    ensures h == g
  {
    if h < g {
      NextHandedOff(store, next, start, h, g);
    } else if g < h {
      NextHandedOff(store, next, start, g, h);
    }
  }

  /**
   * A wait on an earlier run is found when the run that ends its chain settles: exactly for the ids the
   * parsers read.
   */
  lemma EndFindsWaiter(store: map<string, Status>, runId: string, hops: nat)
    requires HandedOff(store, NextId, runId, hops) && 0 < hops <= MAX_HOPS
    ensures runId in Predecessors(After(NextId, runId, hops)) <==> Clean(BaseOf(runId)) && Canonical(runId)
  {
    AfterIs(runId, hops);
    PredecessorIff(runId, hops);
  }
}
