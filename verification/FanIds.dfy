/**
 * The ids `ctx.all`, `ctx.child` and `onError` mint for the runs they start, and the parser that reads
 * a run's parent back off its id.
 */
module FanIds {
  import opened Common
  import opened Replay
  import opened Text

  function WavePart(wave: Option<nat>): string { if wave == None then "" else "w" + Decimal(wave.value) + "." }

  function AllBase(runId: string, first: nat, wave: Option<nat>): string {
    runId + ".all." + Decimal(first) + "." + WavePart(wave)
  }

  function AllChildId(runId: string, first: nat, index: nat, wave: Option<nat>): string {
    AllBase(runId, first, wave) + Decimal(index)
  }

  function SeqChildId(runId: string, at: nat): string { IdOf(runId, Op.Child(None), at) }

  function OnErrorId(runId: string, attempt: nat): string { runId + ".onError." + Decimal(attempt) }

  /** `(?:w\d+\.)?\d+`. */
  ghost predicate Tail(s: string) { Digits(s) || exists d, e :: Digits(d) && Digits(e) && s == WaveTail(d, e) }

  function WaveTail(d: string, e: string): string { "w" + d + "." + e }

  function FanTail(d: string, t: string): string { "all." + d + "." + t }

  /** What follows a parent's id and a dot in the id of a child the engine minted. */
  ghost predicate Minted(s: string) {
    || (exists d, t :: Digits(d) && Tail(t) && s == FanTail(d, t))
    || (exists d :: Digits(d) && s == "child." + d)
    || (exists d :: Digits(d) && s == "onError." + d)
  }

  /** The longest parent, cut at a dot at or before `i`. */
  ghost function ParentFrom(id: string, i: nat): Option<string>
    requires i < |id|
  {
    if i == 0 then None
    else if id[i] == '.' && Minted(id[i + 1..]) && Clean(id[..i]) then Some(id[..i])
    else ParentFrom(id, i - 1)
  }

  /** `parentRunIdOf`. */
  ghost function ParentRunIdOf(id: string): Option<string> { if id == "" then None else ParentFrom(id, |id| - 1) }

  /** After a dot comes a digit or a `w`, never another keyword. */
  predicate AfterDots(s: string) { forall k | 0 < k < |s| && s[k - 1] == '.' :: Digit(s[k]) || s[k] == 'w' }

  predicate Opens(s: string) { s != "" && (Digit(s[0]) || s[0] == 'w') }

  lemma AfterConcat(a: string, b: string)
    requires AfterDots(a) && AfterDots(b) && a != "" && (a[|a| - 1] == '.' ==> Opens(b))
    ensures AfterDots(a + b)
  {
    forall k | 0 < k < |a + b| && (a + b)[k - 1] == '.' ensures Digit((a + b)[k]) || (a + b)[k] == 'w' {
      if k > |a| { assert b[k - 1 - |a|] == '.'; }
    }
  }

  lemma TailShape(t: string)
    requires Tail(t)
    ensures AfterDots(t) && Opens(t)
  {
    if !Digits(t) {
      var d, e :| Digits(d) && Digits(e) && t == WaveTail(d, e);
      AfterConcat("w", d);
      AfterConcat("w" + d, ".");
      AfterConcat("w" + d + ".", e);
    }
  }

  lemma MintedShape(s: string)
    requires Minted(s)
    ensures AfterDots(s) && s != "" && !Digit(s[0]) && s[0] != 'w'
  {
    if d, t :| Digits(d) && Tail(t) && s == FanTail(d, t) {
      TailShape(t);
      AfterConcat("all.", d);
      AfterConcat("all." + d, ".");
      AfterConcat("all." + d + ".", t);
    } else if d :| Digits(d) && s == "child." + d {
      AfterConcat("child.", d);
    } else {
      var d :| Digits(d) && s == "onError." + d;
      AfterConcat("onError.", d);
    }
  }

  /** No cut but the one the engine made leaves something it could have minted. */
  lemma OtherCut(p: string, s: string, i: nat)
    requires Minted(s) && i < |p + "." + s| && i != |p| && (p + "." + s)[i] == '.'
    ensures !Minted((p + "." + s)[i + 1..])
  {
    var id := p + "." + s;
    var rest := id[i + 1..];
    MintedShape(s);
    if i > |p| {
      assert forall k | 0 <= k < |s| :: id[|p| + 1 + k] == s[k];
      if rest != "" { assert rest[0] == s[i - |p|] && s[i - |p| - 1] == '.'; }
      if Minted(rest) { MintedShape(rest); }
    } else {
      var k := |p| - i;
      assert rest[k - 1] == '.' && rest[k] == s[0];
      if Minted(rest) { MintedShape(rest); }
    }
  }

  lemma {:induction false} ParentFound(p: string, s: string, i: nat)
    requires Minted(s) && i < |p + "." + s|
    ensures ParentFrom(p + "." + s, i) == if i >= |p| && p != "" && Clean(p) then Some(p) else None
  {
    var id := p + "." + s;
    if i > 0 {
      if i == |p| {
        assert id[i + 1..] == s && id[..i] == p;
      } else if id[i] == '.' {
        OtherCut(p, s, i);
      }
      ParentFound(p, s, i - 1);
    }
  }

  /**
   * The parent of a minted id is the run that minted it, exactly when that run's id is not empty and
   * has no line terminator; otherwise the parser finds none.
   */
  lemma ParentOfMinted(p: string, s: string)
    requires Minted(s)
    ensures ParentRunIdOf(p + "." + s) == if p != "" && Clean(p) then Some(p) else None
  {
    ParentFound(p, s, |p + "." + s| - 1);
  }

  lemma TailOf(wave: Option<nat>, index: nat) returns (t: string)
    ensures Tail(t) && t == WavePart(wave) + Decimal(index)
  {
    DecimalRound(index);
    if wave == None {
      t := Decimal(index);
    } else {
      DecimalRound(wave.value);
      t := WaveTail(Decimal(wave.value), Decimal(index));
    }
  }

  lemma FanIdIs(runId: string, d: string, w: string, e: string)
    ensures runId + ".all." + d + "." + w + e == runId + "." + FanTail(d, w + e)
  {
    assert ".all." == "." + "all.";
  }

  lemma FanIdMinted(runId: string, first: nat, index: nat, wave: Option<nat>) returns (s: string)
    ensures Minted(s) && AllChildId(runId, first, index, wave) == runId + "." + s
  {
    DecimalRound(first);
    var t := TailOf(wave, index);
    s := FanTail(Decimal(first), t);
    assert Minted(s);
    FanIdIs(runId, Decimal(first), WavePart(wave), Decimal(index));
  }

  lemma OtherIdsMinted(runId: string, n: nat)
    ensures Minted("child." + Decimal(n)) && SeqChildId(runId, n) == runId + "." + ("child." + Decimal(n))
    ensures Minted("onError." + Decimal(n)) && OnErrorId(runId, n) == runId + "." + ("onError." + Decimal(n))
  {
    DecimalRound(n);
    assert ".child." == "." + "child." && ".onError." == "." + "onError.";
  }

  /** For every id the engine mints. */
  lemma ParentRoundTrip(runId: string, first: nat, index: nat, wave: Option<nat>)
    ensures var parent := if runId != "" && Clean(runId) then Some(runId) else None;
            && ParentRunIdOf(AllChildId(runId, first, index, wave)) == parent
            && ParentRunIdOf(SeqChildId(runId, first)) == parent && ParentRunIdOf(OnErrorId(runId, first)) == parent
  {
    OtherIdsMinted(runId, first);
    var s := FanIdMinted(runId, first, index, wave);
    ParentOfMinted(runId, s);
    ParentOfMinted(runId, "child." + Decimal(first));
    ParentOfMinted(runId, "onError." + Decimal(first));
  }

  // ---- no two children share an id -----------------------------------------------------------

  /** A run of digits is cut off in one way. */
  lemma OneCut(d: string, x: string, e: string, y: string)
    requires Digits(d) && Digits(e) && (x == "" || !Digit(x[0])) && (y == "" || !Digit(y[0])) && d + x == e + y
    ensures d == e && x == y
  {
    SpanIs(d + x, |d|);
    SpanIs(e + y, |e|);
    assert (d + x)[..|d|] == d && (e + y)[..|e|] == e && (d + x)[|d|..] == x && (e + y)[|e|..] == y;
  }

  lemma WaveTailCut(d: string, i: string, e: string, j: string)
    requires Digits(d) && Digits(i) && Digits(e) && Digits(j) && WaveTail(d, i) == WaveTail(e, j)
    ensures d == e && i == j
  {
    var x, y := "." + i, "." + j;
    assert WaveTail(d, i)[1..] == d + x && WaveTail(e, j)[1..] == e + y;
    OneCut(d, x, e, y);
    assert x[1..] == i && y[1..] == j;
  }

  lemma WaveCut(v: nat, i: nat, w: nat, j: nat)
    requires WaveTail(Decimal(v), Decimal(i)) == WaveTail(Decimal(w), Decimal(j))
    ensures v == w && i == j
  {
    DecimalRound(v);
    DecimalRound(i);
    DecimalRound(w);
    DecimalRound(j);
    WaveTailCut(Decimal(v), Decimal(i), Decimal(w), Decimal(j));
  }

  lemma PartCut(v: Option<nat>, i: nat, w: Option<nat>, j: nat)
    requires WavePart(v) + Decimal(i) == WavePart(w) + Decimal(j)
    ensures v == w && i == j
  {
    DecimalRound(i);
    DecimalRound(j);
    assert v == None ==> (WavePart(v) + Decimal(i))[0] == Decimal(i)[0];
    assert w == None ==> (WavePart(w) + Decimal(j))[0] == Decimal(j)[0];
    if v == None && w == None {
      assert WavePart(v) + Decimal(i) == Decimal(i) && WavePart(w) + Decimal(j) == Decimal(j);
      DecimalInjective(i, j);
    } else if v != None && w != None {
      WaveCut(v.value, i, w.value, j);
    }
  }

  lemma SameAfter(before: string, s: string, t: string)
    requires before + s == before + t
    ensures s == t
  {
    assert (before + s)[|before|..] == s && (before + t)[|before|..] == t;
  }

  lemma FanTailCut(d: string, t: string, e: string, u: string)
    requires Digits(d) && Digits(e) && FanTail(d, t) == FanTail(e, u)
    ensures d == e && t == u
  {
    var x, y := "." + t, "." + u;
    assert FanTail(d, t) == "all." + (d + x) && FanTail(e, u) == "all." + (e + y);
    SameAfter("all.", d + x, e + y);
    OneCut(d, x, e, y);
    assert x[1..] == t && y[1..] == u;
  }

  /** Two children of one run share an id only when they are the same child of the same wave of the same fan. */
  lemma FanIdInjective(runId: string, first: nat, index: nat, wave: Option<nat>, otherFirst: nat, otherIndex: nat,
                       otherWave: Option<nat>)
    requires AllChildId(runId, first, index, wave) == AllChildId(runId, otherFirst, otherIndex, otherWave)
    ensures first == otherFirst && index == otherIndex && wave == otherWave
  {
    var t, u := WavePart(wave) + Decimal(index), WavePart(otherWave) + Decimal(otherIndex);
    FanIdIs(runId, Decimal(first), WavePart(wave), Decimal(index));
    FanIdIs(runId, Decimal(otherFirst), WavePart(otherWave), Decimal(otherIndex));
    SameAfter(runId + ".", FanTail(Decimal(first), t), FanTail(Decimal(otherFirst), u));
    DecimalRound(first);
    DecimalRound(otherFirst);
    FanTailCut(Decimal(first), t, Decimal(otherFirst), u);
    PartCut(wave, index, otherWave, otherIndex);
  }

  /** An id is cut into a run's id and something minted in one way. */
  lemma OneParent(p: string, s: string, q: string, t: string)
    requires Minted(s) && Minted(t) && p + "." + s == q + "." + t
    ensures p == q
  {
    var id := p + "." + s;
    assert id[|p|] == '.' && id[|p| + 1..] == s && id[|q|] == '.' && id[|q| + 1..] == t;
    if |p| != |q| { OtherCut(p, s, |q|); }
    assert id[..|p|] == p && id[..|q|] == q;
  }

  /** Nor do children of different runs. */
  lemma FanIdsDisjoint(runId: string, first: nat, index: nat, wave: Option<nat>,
                       otherRun: string, otherFirst: nat, otherIndex: nat, otherWave: Option<nat>)
    requires AllChildId(runId, first, index, wave) == AllChildId(otherRun, otherFirst, otherIndex, otherWave)
    ensures runId == otherRun && first == otherFirst && index == otherIndex && wave == otherWave
  {
    var s := FanIdMinted(runId, first, index, wave);
    var t := FanIdMinted(otherRun, otherFirst, otherIndex, otherWave);
    OneParent(runId, s, otherRun, t);
    FanIdInjective(runId, first, index, wave, otherFirst, otherIndex, otherWave);
  }
}
