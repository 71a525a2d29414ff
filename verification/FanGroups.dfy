/**
 * What the join barrier reads back: the group a fan prints on its waiters and checkpoints, the prefix
 * its parent suspended on, and the children a folded checkpoint stands for.
 */
module FanGroups {
  import opened Common
  import opened Text
  import opened FanIds

  datatype Kind = All | Steps
  datatype FanGroup = FanGroup(kind: Kind, first: nat, size: Option<nat>, failFast: bool)

  function Mark(failFast: bool): string { if failFast then ":failFast" else "" }

  function AllGroup(first: nat, size: nat, failFast: bool): string {
    "all:" + (Decimal(first) + (":n" + (Decimal(size) + Mark(failFast))))
  }

  function StepFanGroup(first: nat, size: nat, failFast: bool): string {
    "steps:" + (Decimal(first) + (":" + (Decimal(size) + Mark(failFast))))
  }

  /** `(:failFast)?$`. */
  function ParseMark(s: string): Option<bool> {
    if s == "" then Some(false) else if s == ":failFast" then Some(true) else None
  }

  /** `(\d+)(:failFast)?$`. */
  function ParseCount(s: string): (r: Option<(string, bool)>)
    ensures r.Some? ==> Digits(r.value.0)
  {
    var n := Span(s);
    if n == 0 || ParseMark(s[n..]) == None then None else Some((s[..n], ParseMark(s[n..]).value))
  }

  /** `(?::n?(\d+))?(:failFast)?$`; a step fan must state its size. */
  function ParseSize(kind: Kind, first: nat, s: string): Option<FanGroup> {
    if ParseMark(s).Some? then (if kind == Steps then None else Some(FanGroup(kind, first, None, ParseMark(s).value)))
    else if s[0] != ':' then None
    else
      match ParseCount(if |s| > 1 && s[1] == 'n' then s[2..] else s[1..])
      case None => None
      case Some((size, failFast)) => Some(FanGroup(kind, first, Some(NumberOf(size)), failFast))
  }

  function ParseFirst(kind: Kind, s: string): Option<FanGroup> {
    var n := Span(s);
    if n == 0 then None else ParseSize(kind, NumberOf(s[..n]), s[n..])
  }

  /** `parseFanGroup`. */
  function ParseFanGroup(g: string): Option<FanGroup> {
    if Starts(g, "all:") then ParseFirst(All, g[4..])
      else if Starts(g, "steps:") then ParseFirst(Steps, g[6..]) else None
  }

  /** `parseStepFanGroup`. */
  function ParseStepFanGroup(g: string): Option<(nat, nat)> {
    match ParseFanGroup(g)
    case Some(FanGroup(Steps, first, Some(size), _)) => Some((first, size))
    case _ => None
  }

  lemma DigitsThen(d: string, rest: string)
    requires Digits(d) && (rest == "" || !Digit(rest[0]))
    ensures var s := d + rest; Span(s) == |d| && s[..|d|] == d && s[|d|..] == rest
  {
    SpanIs(d + rest, |d|);
  }

  lemma CountParses(d: string, failFast: bool)
    requires Digits(d)
    ensures ParseCount(d + Mark(failFast)) == Some((d, failFast))
  {
    DigitsThen(d, Mark(failFast));
  }

  /** A size as a child fan prints it. */
  lemma ChildSizeParses(kind: Kind, first: nat, d: string, failFast: bool)
    requires Digits(d)
    ensures ParseSize(kind, first, ":n" + (d + Mark(failFast)))
            == Some(FanGroup(kind, first, Some(NumberOf(d)), failFast))
  {
    CountParses(d, failFast);
    var s := ":n" + (d + Mark(failFast));
    assert s[1] == 'n' && s[2..] == d + Mark(failFast);
  }

  /** A size as a step fan prints it. */
  lemma StepSizeParses(kind: Kind, first: nat, d: string, failFast: bool)
    requires Digits(d)
    ensures ParseSize(kind, first, ":" + (d + Mark(failFast)))
            == Some(FanGroup(kind, first, Some(NumberOf(d)), failFast))
  {
    CountParses(d, failFast);
    var s := ":" + (d + Mark(failFast));
    assert s[1] == d[0] && Digit(d[0]) && s[1..] == d + Mark(failFast);
  }

  lemma FirstParses(kind: Kind, d: string, rest: string)
    requires Digits(d) && rest != "" && !Digit(rest[0])
    ensures ParseFirst(kind, d + rest) == ParseSize(kind, NumberOf(d), rest)
  {
    DigitsThen(d, rest);
  }

  lemma TokenCut(base: string, rest: string)
    ensures Starts(base + rest, base) && (base + rest)[|base|..] == rest
  {
  }

  lemma AllKindParses(s: string)
    ensures ParseFanGroup("all:" + s) == ParseFirst(All, s)
  {
    TokenCut("all:", s);
  }

  lemma StepKindParses(s: string)
    ensures ParseFanGroup("steps:" + s) == ParseFirst(Steps, s)
  {
    TokenCut("steps:", s);
    assert ("steps:" + s)[0] == 's';
    assert !Starts("steps:" + s, "all:");
  }

  lemma AllGroupParses(first: nat, size: nat, failFast: bool)
    ensures ParseFanGroup(AllGroup(first, size, failFast)) == Some(FanGroup(All, first, Some(size), failFast))
  {
    DecimalRound(first);
    DecimalRound(size);
    var rest := ":n" + (Decimal(size) + Mark(failFast));
    assert rest[0] == ':';
    FirstParses(All, Decimal(first), rest);
    ChildSizeParses(All, first, Decimal(size), failFast);
    AllKindParses(Decimal(first) + rest);
  }

  lemma StepGroupParses(first: nat, size: nat, failFast: bool)
    ensures ParseFanGroup(StepFanGroup(first, size, failFast)) == Some(FanGroup(Steps, first, Some(size), failFast))
  {
    DecimalRound(first);
    DecimalRound(size);
    var rest := ":" + (Decimal(size) + Mark(failFast));
    assert rest[0] == ':';
    FirstParses(Steps, Decimal(first), rest);
    StepSizeParses(Steps, first, Decimal(size), failFast);
    StepKindParses(Decimal(first) + rest);
  }

  /** What a fan prints as its group parses back to it, and only a step fan's group names a block of steps. */
  lemma GroupRoundTrip(first: nat, size: nat, failFast: bool)
    ensures ParseFanGroup(AllGroup(first, size, failFast)) == Some(FanGroup(All, first, Some(size), failFast))
    ensures ParseFanGroup(StepFanGroup(first, size, failFast)) == Some(FanGroup(Steps, first, Some(size), failFast))
    ensures ParseStepFanGroup(StepFanGroup(first, size, failFast)) == Some((first, size))
    ensures ParseStepFanGroup(AllGroup(first, size, failFast)) == None
  {
    AllGroupParses(first, size, failFast);
    StepGroupParses(first, size, failFast);
  }

  // ---- the barrier's view of a waiter --------------------------------------------------------

  /** The prefix of the waiters of a fan, or of one wave of it. */
  function WaiterPrefix(runId: string, first: nat, wave: Option<nat>): string { "child:" + AllBase(runId, first, wave) }

  function ChildToken(runId: string, first: nat, index: nat, wave: Option<nat>): string {
    "child:" + AllChildId(runId, first, index, wave)
  }

  /** `^all:(\d+)(?::n\d+)?(:failFast)?$`: the digits and the mark. */
  function ParseWaiterGroup(g: string): Option<(string, bool)> {
    if !Starts(g, "all:") then None
    else
      var s := g[4..];
      var n := Span(s);
      var rest := s[n..];
      if n == 0 then None
      else if ParseMark(rest).Some? then Some((s[..n], ParseMark(rest).value))
      else if !(|rest| > 1 && rest[0] == ':' && rest[1] == 'n') then None
      else
        match ParseCount(rest[2..])
        case None => None
        case Some((_, failFast)) => Some((s[..n], failFast))
  }

  /** `^(?:w(\d+)\.)?\d+$`: the digits of the wave. */
  function ParseRest(s: string): Option<Option<string>> {
    if Digits(s) then Some(None)
    else if s == "" || s[0] != 'w' then None
    else
      var t := s[1..];
      var n := Span(t);
      if 0 < n < |t| && t[n] == '.' && Digits(t[n + 1..]) then Some(Some(t[..n])) else None
  }

  function FanBase(runId: string, first: string): string { "child:" + (runId + (".all." + (first + "."))) }

  function Covering(base: string, rest: string, failFast: bool): Option<(string, bool)> {
    match ParseRest(rest)
    case None => None
    case Some(None) => Some((base, failFast))
    case Some(Some(wave)) => Some((base + ("w" + (wave + ".")), failFast))
  }

  /** `fanOfWaiter`: the prefix its fan or wave waits on, and whether the fan fails fast. */
  function FanOfWaiter(token: string, runId: string, group: string): Option<(string, bool)> {
    match ParseWaiterGroup(group)
    case None => None
    case Some((first, failFast)) =>
      var base := FanBase(runId, first);
      if !Starts(token, base) then None
      else Covering(base, token[|base|..], failFast)
  }

  lemma WaiterGroupParses(d: string, e: string, failFast: bool)
    requires Digits(d) && Digits(e)
    ensures ParseWaiterGroup("all:" + (d + (":n" + (e + Mark(failFast))))) == Some((d, failFast))
  {
    var rest := ":n" + (e + Mark(failFast));
    assert rest[0] == ':' && rest[1] == 'n' && rest[2..] == e + Mark(failFast);
    CountParses(e, failFast);
    DigitsThen(d, rest);
    assert ("all:" + (d + rest))[..4] == "all:" && ("all:" + (d + rest))[4..] == d + rest;
  }

  lemma WaveRestParses(d: string, e: string)
    requires Digits(d) && Digits(e)
    ensures ParseRest(WaveTail(d, e)) == Some(Some(d))
  {
    var s := WaveTail(d, e);
    var dot := "." + e;
    DigitsThen(d, dot);
    assert s[0] == 'w' && s[1..] == d + dot;
    assert (d + dot)[|d|] == '.' && (d + dot)[|d| + 1..] == e;
  }

  lemma TokenIs(runId: string, d: string, w: string, e: string)
    ensures "child:" + (runId + ".all." + d + "." + w + e) == FanBase(runId, d) + (w + e)
    ensures "child:" + (runId + ".all." + d + "." + w) == FanBase(runId, d) + w
  {
  }

  lemma PartIs(wave: nat, e: string)
    ensures WavePart(Some(wave)) == "w" + (Decimal(wave) + ".")
            && WavePart(Some(wave)) + e == WaveTail(Decimal(wave), e)
  {
  }

  lemma PlainCovering(base: string, e: string, failFast: bool)
    requires Digits(e)
    ensures Covering(base, "" + e, failFast) == Some((base + "", failFast))
  {
    assert "" + e == e && base + "" == base;
  }

  lemma WaveCovering(base: string, wave: nat, e: string, failFast: bool)
    requires Digits(e)
    ensures Covering(base, WavePart(Some(wave)) + e, failFast) == Some((base + WavePart(Some(wave)), failFast))
  {
    DecimalRound(wave);
    PartIs(wave, e);
    WaveRestParses(Decimal(wave), e);
  }

  lemma CoveredBy(runId: string, group: string, d: string, rest: string, failFast: bool)
    requires ParseWaiterGroup(group) == Some((d, failFast))
    ensures FanOfWaiter(FanBase(runId, d) + rest, runId, group) == Covering(FanBase(runId, d), rest, failFast)
  {
    TokenCut(FanBase(runId, d), rest);
  }

  lemma PartCovering(base: string, wave: Option<nat>, e: string, failFast: bool)
    requires Digits(e)
    ensures Covering(base, WavePart(wave) + e, failFast) == Some((base + WavePart(wave), failFast))
  {
    match wave
    case None => PlainCovering(base, e, failFast);
    case Some(w) => WaveCovering(base, w, e, failFast);
  }

  lemma AllGroupWaits(first: nat, size: nat, failFast: bool)
    ensures ParseWaiterGroup(AllGroup(first, size, failFast)) == Some((Decimal(first), failFast))
  {
    DecimalRound(first);
    DecimalRound(size);
    WaiterGroupParses(Decimal(first), Decimal(size), failFast);
  }

  /** The barrier reads off a `ctx.all` waiter exactly the prefix its parent suspended on. */
  lemma WaiterRoundTrip(runId: string, first: nat, index: nat, wave: Option<nat>, size: nat, failFast: bool)
    ensures FanOfWaiter(ChildToken(runId, first, index, wave), runId, AllGroup(first, size, failFast))
            == Some((WaiterPrefix(runId, first, wave), failFast))
  {
    DecimalRound(index);
    AllGroupWaits(first, size, failFast);
    TokenIs(runId, Decimal(first), WavePart(wave), Decimal(index));
    CoveredBy(runId, AllGroup(first, size, failFast), Decimal(first), WavePart(wave) + Decimal(index), failFast);
    PartCovering(FanBase(runId, Decimal(first)), wave, Decimal(index), failFast);
  }

  lemma CoveringCovers(base: string, rest: string, failFast: bool)
    ensures var f := Covering(base, rest, failFast);
            f.Some? ==> Starts(base + rest, f.value.0) && Digits((base + rest)[|f.value.0|..])
  {
    if Digits(rest) {
      TokenCut(base, rest);
    } else if ParseRest(rest).Some? {
      var t := rest[1..];
      var n := Span(t);
      var wave, e := "w" + (t[..n] + "."), t[n + 1..];
      assert t == t[..n] + ("." + e) && rest == "w" + t;
      assert base + rest == (base + wave) + e;
      TokenCut(base + wave, e);
    }
  }

  /** The prefix claims no waiter but its own: what it leaves of the token is the child's index. */
  lemma PrefixCovers(token: string, runId: string, group: string)
    ensures var f := FanOfWaiter(token, runId, group);
            f.Some? ==> Starts(token, f.value.0) && Digits(token[|f.value.0|..]) && Starts(group, "all:")
  {
    if FanOfWaiter(token, runId, group).Some? {
      var (d, failFast) := ParseWaiterGroup(group).value;
      var base := FanBase(runId, d);
      assert token == base + token[|base|..];
      CoveringCovers(base, token[|base|..], failFast);
    }
  }

  // ---- the children a fold stands for --------------------------------------------------------

  function FoldedName(runId: string, first: nat, wave: Option<nat>): string { "fan:" + AllBase(runId, first, wave) }

  /** `foldedChildIds` of a checkpoint holding `count` values from input index `from` on. */
  function FoldedChildIds(name: string, from: nat, count: nat): seq<string> {
    var base := if |name| < 4 then "" else name[4..];
    seq(count, j requires 0 <= j => base + Decimal(from + j))
  }

  /** A fold names exactly the children of its block, in input order. */
  lemma FoldedRoundTrip(runId: string, first: nat, wave: Option<nat>, from: nat, count: nat)
    ensures var ids := FoldedChildIds(FoldedName(runId, first, wave), from, count);
            && |ids| == count
            && (forall j | 0 <= j < count :: ids[j] == AllChildId(runId, first, from + j, wave))
            && (forall i: nat :: AllChildId(runId, first, i, wave) in ids <==> from <= i < from + count)
  {
    var base := AllBase(runId, first, wave);
    var ids := FoldedChildIds(FoldedName(runId, first, wave), from, count);
    assert ("fan:" + base)[4..] == base;
    assert forall j | 0 <= j < count :: ids[j] == AllChildId(runId, first, from + j, wave);
    forall i: nat ensures AllChildId(runId, first, i, wave) in ids <==> from <= i < from + count {
      if from <= i < from + count { assert ids[i - from] == AllChildId(runId, first, i, wave); }
      if AllChildId(runId, first, i, wave) in ids {
        var j :| 0 <= j < count && ids[j] == AllChildId(runId, first, i, wave);
        FanIdInjective(runId, first, i, wave, first, from + j, wave);
      }
    }
  }
}
