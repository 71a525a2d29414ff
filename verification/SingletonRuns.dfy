/** The runs of a singleton key over time, and the store and gate that admit them. */
module SingletonRuns {
  import opened Common
  import opened RunStatuses
  import opened Singleton

  /** The key whose slots are counted. */
  datatype Key = Key(workflow: string, tag: string, limit: nat)

  /** As the gate makes them: a positive limit and a tag `singleton:<key>`. */
  predicate Proper(k: Key) { k.limit >= 1 && "singleton:" <= k.tag }

  lemma TagIsNoMarker(k: Key)
    requires Proper(k)
    ensures k.tag != ADMITTED && k.tag != TRACKED
  {
    assert k.tag[0] == "singleton:"[0];
  }

  function WithoutMarkers(tags: set<string>): set<string> { tags - {ADMITTED, TRACKED} }

  function WithTracked(tags: set<string>): set<string> { if ADMITTED in tags then tags else tags + {TRACKED} }

  predicate Competes(k: Key, r: Run) { r.workflow == k.workflow && Active(r.status) && k.tag in r.tags }

  /** The row of a denied candidate: parked and marked, or untouched when it no longer competes. */
  function Denied(k: Key, r: Run): Run {
    if Competes(k, r) then r.(status := Suspended, tags := WithTracked(r.tags)) else r
  }

  /** `tryAdmitSingleton` on a listing of the store's rows. */
  function TryAdmit(k: Key, rows: map<nat, Run>, listing: seq<Run>, id: nat): (map<nat, Run>, bool) {
    if id !in rows then (rows, false) else Decided(k, rows, id, AdmissionTags(listing, id, k.tag, k.workflow, k.limit))
  }

  function Decided(k: Key, rows: map<nat, Run>, id: nat, d: Decision): (map<nat, Run>, bool)
    requires id in rows
  {
    if d.Admit? then (rows[id := rows[id].(tags := d.tags)], true) else (rows[id := Denied(k, rows[id])], false)
  }

  datatype Event =
    | Create(r: Run)                       // a fresh run, its reserved tags stripped
    | Execute(id: nat)                     // a first execution marks the run in the same write
    | OldExecute(id: nat)                  // a replica that knows no markers runs it
    | Attempt(id: nat, listing: seq<Run>)  // an admission, whatever order the store lists its rows in
    | Move(id: nat, status: RunStatus)        // suspended, blocked, resumed, recovered after a lost lease
    | Settle(id: nat, status: RunStatus)
    | Requeue(id: nat)

  ghost function Rows(rows: map<nat, Run>): set<Run> { set id | id in rows :: rows[id] }

  predicate Keyed(rows: map<nat, Run>) { forall id | id in rows :: rows[id].id == id }

  ghost predicate Lists(listing: seq<Run>, rows: map<nat, Run>) { Distinct(listing) && Elements(listing) == Rows(rows) }

  ghost function Do(k: Key, rows: map<nat, Run>, ev: Event): map<nat, Run> {
    match ev
    case Create(r) => if r.id in rows then rows else rows[r.id := r.(status := Pending, tags := WithoutMarkers(r.tags))]
    case Execute(id) =>
      if id in rows && Active(rows[id].status) then
        rows[id := rows[id].(status := Running, tags := WithTracked(rows[id].tags))]
      else rows
    case OldExecute(id) =>
      if id in rows && Active(rows[id].status) then rows[id := rows[id].(status := Running)] else rows
    case Attempt(id, listing) => if Lists(listing, rows) then TryAdmit(k, rows, listing, id).0 else rows
    case Move(id, status) =>
      if id in rows && Active(rows[id].status) && Active(status) then rows[id := rows[id].(status := status)] else rows
    case Settle(id, status) =>
      if id in rows && !Active(status) then
        rows[id := rows[id].(status := status, tags := WithoutMarkers(rows[id].tags))] else rows
    case Requeue(id) =>
      if id in rows then rows[id := rows[id].(status := Pending, tags := WithoutMarkers(rows[id].tags))] else rows
  }

  ghost function History(k: Key, evs: seq<Event>): map<nat, Run> {
    if evs == [] then map[] else Do(k, History(k, evs[..|evs| - 1]), evs[|evs| - 1])
  }

  /** The runs of the key that hold a slot. */
  function SlotHolders(k: Key, rows: map<nat, Run>): set<nat> {
    set id | id in rows && Competes(k, rows[id]) && Holds(rows[id])
  }

  ghost predicate Valid(k: Key, rows: map<nat, Run>) {
    && Keyed(rows) && |SlotHolders(k, rows)| <= k.limit
    && forall id | id in rows && Holds(rows[id]) :: Active(rows[id].status)
  }

  lemma ActiveRows(k: Key, rows: map<nat, Run>, listing: seq<Run>)
    requires Keyed(rows) && Lists(listing, rows)
    ensures forall r :: r in Elements(ActiveOf(listing, k.tag, k.workflow)) <==>
              r.id in rows && rows[r.id] == r && Competes(k, r)
    ensures |Holders(Elements(ActiveOf(listing, k.tag, k.workflow)))| == |SlotHolders(k, rows)|
  {
    var a := Elements(ActiveOf(listing, k.tag, k.workflow));
    assert forall r :: r in listing <==> r in Elements(listing);
    forall r ensures r in a <==> r.id in rows && rows[r.id] == r && Competes(k, r) {
      assert r in Rows(rows) <==> r.id in rows && rows[r.id] == r;
    }
    SameSize(Holders(a), SlotHolders(k, rows), rows);
  }

  lemma {:induction false} SameSize(s: set<Run>, ids: set<nat>, rows: map<nat, Run>)
    requires forall r | r in s :: r.id in ids && r.id in rows && rows[r.id] == r
    requires forall id | id in ids :: id in rows && rows[id] in s && rows[id].id == id
    ensures |s| == |ids|
  {
    if ids == {} {
      assert s == {};
    } else {
      var id :| id in ids;
      SameSize(s - {rows[id]}, ids - {id}, rows);
    }
  }

  /** What an admission presupposes, and the tags it writes. */
  predicate Sane(k: Key, rows: map<nat, Run>, id: nat, d: Decision)
    requires id in rows
  {
    d.Admit? ==>
      && Competes(k, rows[id])
      && (Holds(rows[id]) ==> d.tags == rows[id].tags)
      && (!Holds(rows[id]) ==> d.tags == rows[id].tags - {TRACKED} + {ADMITTED} && |SlotHolders(k, rows)| < k.limit)
  }

  lemma DecisionIsSane(k: Key, rows: map<nat, Run>, id: nat, listing: seq<Run>)
    requires Proper(k) && Valid(k, rows) && Lists(listing, rows) && id in rows
    ensures Sane(k, rows, id, AdmissionTags(listing, id, k.tag, k.workflow, k.limit))
  {
    AdmissionIff(listing, id, k.tag, k.workflow, k.limit);
    ActiveRows(k, rows, listing);
  }

  lemma DecidedKeeps(k: Key, rows: map<nat, Run>, id: nat, d: Decision)
    requires Proper(k) && Valid(k, rows) && id in rows && Sane(k, rows, id, d)
    ensures Valid(k, Decided(k, rows, id, d).0)
  {
    var rows' := Decided(k, rows, id, d).0;
    if d.Admit? && !Holds(rows[id]) {
      assert SlotHolders(k, rows') <= SlotHolders(k, rows) + {id};
      SubsetSize(SlotHolders(k, rows'), SlotHolders(k, rows) + {id});
    } else {
      assert SlotHolders(k, rows') == SlotHolders(k, rows);
    }
  }

  lemma AttemptKeeps(k: Key, rows: map<nat, Run>, id: nat, listing: seq<Run>)
    requires Proper(k) && Valid(k, rows) && Lists(listing, rows)
    ensures Valid(k, TryAdmit(k, rows, listing, id).0)
  {
    if id in rows {
      DecisionIsSane(k, rows, id, listing);
      DecidedKeeps(k, rows, id, AdmissionTags(listing, id, k.tag, k.workflow, k.limit));
    }
  }

  lemma EventKeeps(k: Key, rows: map<nat, Run>, ev: Event)
    requires Proper(k) && Valid(k, rows)
    ensures Valid(k, Do(k, rows, ev))
  {
    match ev
    case Attempt(id, listing) => if Lists(listing, rows) { AttemptKeeps(k, rows, id, listing); }
    case _ =>
      assert SlotHolders(k, Do(k, rows, ev)) <= SlotHolders(k, rows);
      SubsetSize(SlotHolders(k, Do(k, rows, ev)), SlotHolders(k, rows));
  }

  /**
   * The runs of the workflow with the key's tag and the admitted one that are pending, running, suspended
   * or blocked.
   */
  function SlotsTaken(k: Key, rows: map<nat, Run>): set<nat> {
    set id | id in rows && rows[id].workflow == k.workflow && k.tag in rows[id].tags
             && "durable:singleton:admitted" in rows[id].tags
             && (rows[id].status == Pending || rows[id].status == Running || rows[id].status == Suspended
                 || rows[id].status == Blocked)
  }

  lemma SlotsTakenIs(k: Key, rows: map<nat, Run>)
    ensures SlotsTaken(k, rows) == SlotHolders(k, rows)
  {
  }

  /**
   * Singleton safety: whatever starts, suspends, blocks, is denied, loses its lease, settles or is
   * requeued, and in whatever order, at most `limit` active runs of a key hold a slot, and no settled
   * run does.
   */
  lemma {:induction false} AtMostLimit(k: Key, evs: seq<Event>)
    requires Proper(k)
    ensures Valid(k, History(k, evs))
    ensures var rows := History(k, evs);
            && |SlotsTaken(k, rows)| <= k.limit
            && forall id | id in rows && "durable:singleton:admitted" in rows[id].tags ::
                 rows[id].status != Completed && rows[id].status != Failed && rows[id].status != Cancelled
                 && rows[id].status != Dead
  {
    if evs == [] {
      assert SlotHolders(k, map[]) == {};
    } else {
      AtMostLimit(k, evs[..|evs| - 1]);
      EventKeeps(k, History(k, evs[..|evs| - 1]), evs[|evs| - 1]);
    }
    SlotsTakenIs(k, History(k, evs));
  }

  /** A holder keeps its slot through every event but its own settlement or requeue. */
  lemma HolderKeeps(k: Key, rows: map<nat, Run>, ev: Event, id: nat)
    requires Valid(k, rows) && id in SlotHolders(k, rows)
    requires !(ev.Settle? && ev.id == id) && !(ev.Requeue? && ev.id == id)
    requires Proper(k)
    ensures id in SlotHolders(k, Do(k, rows, ev))
  {
    TagIsNoMarker(k);
    if ev.Attempt? && Lists(ev.listing, rows) && ev.id in rows {
      AdmissionIff(ev.listing, ev.id, k.tag, k.workflow, k.limit);
      ActiveRows(k, rows, ev.listing);
    }
  }

  /** The active runs of the key. */
  ghost function Competing(k: Key, rows: map<nat, Run>): set<Run> { set r | r in Rows(rows) && Competes(k, r) }

  /**
   * Each admission goes to one of the oldest waiters the free slots are left for, counting every run
   * an older replica may have let in; and with it no more than `limit` runs hold or may hold a slot.
   */
  lemma AdmitsTheOldest(k: Key, rows: map<nat, Run>, id: nat, listing: seq<Run>)
    requires Valid(k, rows) && Lists(listing, rows) && Proper(k) && id in rows && !Holds(rows[id])
    requires TryAdmit(k, rows, listing, id).1
    ensures var a := Competing(k, rows); var legacy := Legacy(a, id, k.limit);
            |Older(Waiters(a, legacy), rows[id])| + |Holders(a)| + |legacy| < k.limit
    ensures id in SlotHolders(k, TryAdmit(k, rows, listing, id).0)
  {
    TagIsNoMarker(k);
    AdmissionIff(listing, id, k.tag, k.workflow, k.limit);
    ActiveRows(k, rows, listing);
    ActiveIsCompeting(k, rows, listing);
  }

  lemma ActiveIsCompeting(k: Key, rows: map<nat, Run>, listing: seq<Run>)
    requires Keyed(rows) && Lists(listing, rows)
    ensures Elements(ActiveOf(listing, k.tag, k.workflow)) == Competing(k, rows)
  {
  }

  /** A denial never revives: a run that has settled is exactly as it was. */
  lemma DenialRevivesNothing(k: Key, rows: map<nat, Run>, id: nat, listing: seq<Run>)
    requires Valid(k, rows) && Lists(listing, rows) && Proper(k)
    requires id in rows && !Active(rows[id].status)
    ensures Do(k, rows, Attempt(id, listing)) == rows
  {
    AdmissionIff(listing, id, k.tag, k.workflow, k.limit);
    ActiveRows(k, rows, listing);
  }

  // ---- a slot that stays free ----------------------------------------------------------------

  /** Two waiters behind a younger holder, with a limit of two: each counts the other, and neither is let in. */
  lemma EachCountsTheOther(a: set<Run>, h: Run, w: Run, v: Run)
    requires a == {h, w, v} && w.id < v.id < h.id && w.createdAt < v.createdAt < h.createdAt
    requires Scanned(w.status) && Scanned(v.status) && Holds(h) && !Holds(w) && !Holds(v)
    ensures !Free(a, Legacy(a, w.id, 2), 2, w) || TRACKED !in v.tags
    ensures !Free(a, Legacy(a, v.id, 2), 2, v) || TRACKED !in w.tags
    ensures Free(a, {}, 2, w)
  {
    assert Holders(a) == {h} && InScan(a) == a;
    assert Older(InScan(a), w) == {} && Older(InScan(a), v) == {w};
    assert TRACKED in v.tags ==> v in Legacy(a, w.id, 2);
    assert TRACKED in w.tags ==> w in Legacy(a, v.id, 2);
    if TRACKED in v.tags { SubsetSize({v}, Legacy(a, w.id, 2)); }
    if TRACKED in w.tags { SubsetSize({w}, Legacy(a, v.id, 2)); }
    assert Older(Waiters(a, {}), w) == {};
  }

  lemma Then(k: Key, evs: seq<Event>, rows: map<nat, Run>, ev: Event) returns (evs': seq<Event>, rows': map<nat, Run>)
    requires rows == History(k, evs)
    ensures evs' == evs + [ev] && rows' == Do(k, rows, ev) == History(k, evs')
  {
    evs', rows' := evs + [ev], Do(k, rows, ev);
    assert evs'[..|evs|] == evs;
  }

  /** Run `id` of the key, created `id`-th. */
  function RunOf(k: Key, id: nat, status: RunStatus, marks: set<string>): Run {
    Run(id, id, k.workflow, status, {k.tag} + marks)
  }

  function Three(a: Run, b: Run, c: Run): map<nat, Run> { map[0 := a, 1 := b, 2 := c] }

  lemma ThreeListed(a: Run, b: Run, c: Run)
    requires a.id == 0 && b.id == 1 && c.id == 2
    ensures Lists([a, b, c], Three(a, b, c)) && Rows(Three(a, b, c)) == {a, b, c} && Keyed(Three(a, b, c))
  {
    assert Elements([a, b, c]) == {a, b, c};
    assert Three(a, b, c)[0] == a && Three(a, b, c)[1] == b && Three(a, b, c)[2] == c;
  }

  lemma Decides(k: Key, rows: map<nat, Run>, id: nat, listing: seq<Run>)
    requires Proper(k) && Keyed(rows) && Lists(listing, rows) && id in rows && Competes(k, rows[id]) && !Holds(rows[id])
    ensures var a, d := Competing(k, rows), AdmissionTags(listing, id, k.tag, k.workflow, k.limit);
            && (d.Admit? <==> Free(a, Legacy(a, id, k.limit), k.limit, rows[id]))
            && (d.Admit? ==> d.tags == rows[id].tags - {TRACKED} + {ADMITTED})
  {
    AdmissionIff(listing, id, k.tag, k.workflow, k.limit);
    ActiveIsCompeting(k, rows, listing);
    var a := Competing(k, rows);
    assert rows[id] in Rows(rows) && rows[id] in a;
    assert forall c | c in a && c.id == id :: c == rows[id];
  }

  /** What an attempt does to a waiter, by whether a slot is free for it. */
  lemma AttemptIs(k: Key, rows: map<nat, Run>, id: nat, listing: seq<Run>)
    requires Proper(k) && Keyed(rows) && Lists(listing, rows) && id in rows && Competes(k, rows[id]) && !Holds(rows[id])
    ensures var a := Competing(k, rows);
            Do(k, rows, Attempt(id, listing))
            == if Free(a, Legacy(a, id, k.limit), k.limit, rows[id]) then
              rows[id := rows[id].(tags := rows[id].tags - {TRACKED} + {ADMITTED})]
               else rows[id := Denied(k, rows[id])]
  {
    Decides(k, rows, id, listing);
    assert Do(k, rows, Attempt(id, listing))
           == Decided(k, rows, id, AdmissionTags(listing, id, k.tag, k.workflow, k.limit)).0;
  }

  lemma Marks(k: Key)
    requires Proper(k)
    ensures WithoutMarkers({k.tag} + {}) == {k.tag} + {} && WithoutMarkers({k.tag} + {TRACKED}) == {k.tag} + {}
    ensures WithTracked({k.tag} + {}) == {k.tag} + {TRACKED}
            && {k.tag} + {TRACKED} - {TRACKED} + {ADMITTED} == {k.tag} + {ADMITTED}
  {
    TagIsNoMarker(k);
  }

  /** Two runs fail before they start; a third is created, executed and admitted. */
  lemma YoungerHolds(k: Key) returns (evs: seq<Event>, rows: map<nat, Run>)
    requires Proper(k) && k.limit == 2
    ensures rows == History(k, evs)
    ensures rows == Three(RunOf(k, 0, Failed, {}), RunOf(k, 1, Failed, {}), RunOf(k, 2, Running, {ADMITTED}))
  {
    Marks(k);
    evs, rows := [], map[];
    evs, rows := Then(k, evs, rows, Create(RunOf(k, 0, Pending, {})));
    evs, rows := Then(k, evs, rows, Settle(0, Failed));
    assert rows == map[0 := RunOf(k, 0, Failed, {})];
    evs, rows := Then(k, evs, rows, Create(RunOf(k, 1, Pending, {})));
    evs, rows := Then(k, evs, rows, Settle(1, Failed));
    assert rows == map[0 := RunOf(k, 0, Failed, {}), 1 := RunOf(k, 1, Failed, {})];
    evs, rows := Then(k, evs, rows, Create(RunOf(k, 2, Pending, {})));
    evs, rows := Then(k, evs, rows, Execute(2));
    var a, b, c := RunOf(k, 0, Failed, {}), RunOf(k, 1, Failed, {}), RunOf(k, 2, Running, {TRACKED});
    assert rows == Three(a, b, c);
    FirstAdmitted(k, a, b, c);
    evs, rows := Then(k, evs, rows, Attempt(2, [a, b, c]));
  }

  lemma FirstAdmitted(k: Key, a: Run, b: Run, c: Run)
    requires Proper(k) && k.limit == 2
    requires a == RunOf(k, 0, Failed, {}) && b == RunOf(k, 1, Failed, {}) && c == RunOf(k, 2, Running, {TRACKED})
    ensures Do(k, Three(a, b, c), Attempt(2, [a, b, c])) == Three(a, b, c.(tags := c.tags - {TRACKED} + {ADMITTED}))
  {
    TagIsNoMarker(k);
    ThreeListed(a, b, c);
    AttemptIs(k, Three(a, b, c), 2, [a, b, c]);
    var all := Competing(k, Three(a, b, c));
    assert all == {c};
    assert Legacy(all, 2, 2) == {} && Holders(all) == {} && Older(Waiters(all, {}), c) == {};
  }

  lemma AllCompete(k: Key, w: Run, v: Run, h: Run)
    requires w.id == 0 && v.id == 1 && h.id == 2 && Competes(k, w) && Competes(k, v) && Competes(k, h)
    ensures Competing(k, Three(w, v, h)) == {h, w, v} && Keyed(Three(w, v, h))
  {
    ThreeListed(w, v, h);
  }

  lemma ParksOne(k: Key, rows: map<nat, Run>, id: nat, listing: seq<Run>)
    requires Proper(k) && Keyed(rows) && Lists(listing, rows) && id in rows && Competes(k, rows[id]) && !Holds(rows[id])
    requires TRACKED in rows[id].tags
             && !Free(Competing(k, rows), Legacy(Competing(k, rows), id, k.limit), k.limit, rows[id])
    ensures Do(k, rows, Attempt(id, listing)) == rows[id := rows[id].(status := Suspended)]
  {
    AttemptIs(k, rows, id, listing);
    assert rows[id].tags + {TRACKED} == rows[id].tags;
  }

  /** An attempt of either waiter behind the younger holder parks it, and no more. */
  lemma AttemptParks(k: Key, w: Run, v: Run, h: Run, id: nat, listing: seq<Run>)
    requires Proper(k) && k.limit == 2 && id < 2 && Scanned(w.status) && Scanned(v.status)
    requires w == RunOf(k, 0, w.status, {TRACKED}) && v == RunOf(k, 1, v.status, {TRACKED})
             && h == RunOf(k, 2, Running, {ADMITTED})
    requires Lists(listing, Three(w, v, h))
    ensures Do(k, Three(w, v, h), Attempt(id, listing))
            == if id == 0 then Three(w.(status := Suspended), v, h) else Three(w, v.(status := Suspended), h)
  {
    TagIsNoMarker(k);
    AllCompete(k, w, v, h);
    EachCountsTheOther({h, w, v}, h, w, v);
    ParksOne(k, Three(w, v, h), id, listing);
  }

  /** One of them is requeued and executed. */
  lemma Returns(k: Key, evs: seq<Event>, rows: map<nat, Run>, id: nat) returns (evs': seq<Event>, rows': map<nat, Run>)
    requires Proper(k) && rows == History(k, evs) && id in rows && rows[id] == RunOf(k, id, Failed, {})
    ensures rows' == History(k, evs') == rows[id := RunOf(k, id, Running, {TRACKED})]
  {
    Marks(k);
    evs', rows' := Then(k, evs, rows, Requeue(id));
    evs', rows' := Then(k, evs', rows', Execute(id));
  }

  /** The two come back behind it. */
  lemma OlderReturn(k: Key) returns (evs: seq<Event>, rows: map<nat, Run>)
    requires Proper(k) && k.limit == 2
    ensures rows == History(k, evs)
    ensures rows == Three(RunOf(k, 0, Running, {TRACKED}), RunOf(k, 1, Running, {TRACKED}),
              RunOf(k, 2, Running, {ADMITTED}))
  {
    evs, rows := YoungerHolds(k);
    evs, rows := Returns(k, evs, rows, 0);
    evs, rows := Returns(k, evs, rows, 1);
  }

  /**
   * A free slot can stay unused for good: with a limit of two, a run holds one slot, and two older
   * ones, requeued after failing, each count the other, attempt after attempt, as long as it holds.
   */
  lemma SlotCanStayIdle(k: Key) returns (evs: seq<Event>)
    requires Proper(k) && k.limit == 2
    ensures var rows := History(k, evs);
            && SlotHolders(k, rows) == {2} && rows.Keys == {0, 1, 2} && Competes(k, rows[0]) && Competes(k, rows[1])
            && forall id: nat, listing | id < 2 && Lists(listing, rows) :: Do(k, rows, Attempt(id, listing)) == rows
  {
    var rows;
    evs, rows := OlderReturn(k);
    var w, v, h := RunOf(k, 0, Running, {TRACKED}), RunOf(k, 1, Running, {TRACKED}), RunOf(k, 2, Running, {ADMITTED});
    evs, rows := BothParked(k, evs, rows, w, v, h);
    Parked(k, w.(status := Suspended), v.(status := Suspended), h);
  }

  lemma Parked(k: Key, w: Run, v: Run, h: Run)
    requires Proper(k) && k.limit == 2
    requires w == RunOf(k, 0, Suspended, {TRACKED}) && v == RunOf(k, 1, Suspended, {TRACKED})
             && h == RunOf(k, 2, Running, {ADMITTED})
    ensures var rows := Three(w, v, h);
            && SlotHolders(k, rows) == {2} && rows.Keys == {0, 1, 2} && Competes(k, rows[0]) && Competes(k, rows[1])
            && forall id: nat, listing | id < 2 && Lists(listing, rows) :: Do(k, rows, Attempt(id, listing)) == rows
  {
    TagIsNoMarker(k);
    var rows := Three(w, v, h);
    forall id: nat, listing | id < 2 && Lists(listing, rows) ensures Do(k, rows, Attempt(id, listing)) == rows {
      AttemptParks(k, w, v, h, id, listing);
    }
  }

  lemma BothParked(k: Key, evs: seq<Event>, rows: map<nat, Run>, w: Run, v: Run, h: Run)
    returns (evs': seq<Event>, rows': map<nat, Run>)
    requires Proper(k) && k.limit == 2 && rows == History(k, evs) == Three(w, v, h)
    requires w == RunOf(k, 0, Running, {TRACKED}) && v == RunOf(k, 1, Running, {TRACKED})
             && h == RunOf(k, 2, Running, {ADMITTED})
    ensures rows' == History(k, evs') == Three(w.(status := Suspended), v.(status := Suspended), h)
  {
    var w', v' := w.(status := Suspended), v.(status := Suspended);
    ThreeListed(w, v, h);
    AttemptParks(k, w, v, h, 0, [w, v, h]);
    evs', rows' := Then(k, evs, rows, Attempt(0, [w, v, h]));
    ThreeListed(w', v, h);
    AttemptParks(k, w', v, h, 1, [w', v, h]);
    evs', rows' := Then(k, evs', rows', Attempt(1, [w', v, h]));
  }

  // ---- the store and the gate ----------------------------------------------------------------

  /** A row let in: marked as admitted and no longer as tracked, or as it is when it was admitted before. */
  function Claimed(r: Run): Run {
    if "durable:singleton:admitted" in r.tags then r
    else r.(tags := r.tags - {"durable:singleton:tracked"} + {"durable:singleton:admitted"})
  }

  /** A row turned away: suspended and tracked while it competes for the key, and left as it is otherwise. */
  function Turned(r: Run, workflow: string, tag: string): Run {
    if r.workflow == workflow && tag in r.tags
      && (r.status == Pending || r.status == Running || r.status == Suspended || r.status == Blocked)
    then r.(status := Suspended,
            tags := if "durable:singleton:admitted" in r.tags then r.tags else r.tags + {"durable:singleton:tracked"})
    else r
  }

  lemma ListedOnce(rows: map<nat, Run>, listing: seq<Run>, id: nat, k: Key)
    requires Keyed(rows) && Lists(listing, rows)
    ensures forall c | c in Elements(ActiveOf(listing, k.tag, k.workflow)) && c.id == id :: id in rows && rows[id] == c
  {
    ActiveRows(k, rows, listing);
  }

  class Store {
    var runs: map<nat, Run>

    /** A listing of every row, in some order. */
    method Values() returns (listing: seq<Run>)
      requires Keyed(runs)
      ensures Lists(listing, runs)
    {
      listing := [];
      var left := runs.Keys;
      while left != {}
        invariant left <= runs.Keys && Distinct(listing)
        invariant forall r :: r in listing <==> r.id in runs && r.id !in left && runs[r.id] == r
        decreases |left|
      {
        var id :| id in left;
        ghost var before := listing;
        listing := listing + [runs[id]];
        left := left - {id};
        assert forall i | 0 <= i < |before| :: before[i] in before;
      }
      assert forall r :: r in listing <==> r in Elements(listing);
      assert forall r :: r in Rows(runs) <==> r.id in runs && runs[r.id] == r;
    }

    /** The critical section: the snapshot and the claim are one step. */
    method TryAdmitSingleton(k: Key, id: nat, retry: bool) returns (admitted: bool, ghost listing: seq<Run>)
      requires Keyed(runs)
      modifies this
      ensures Lists(listing, old(runs))
      ensures admitted == TryAdmit(k, old(runs), listing, id).1
      ensures admitted || retry ==> runs == TryAdmit(k, old(runs), listing, id).0
      ensures !admitted && !retry ==> runs == old(runs)
      ensures admitted && k.limit >= 1 ==> id in old(runs) && runs == old(runs)[id := Claimed(old(runs)[id])]
      ensures !admitted && retry && id in old(runs) ==>
                runs == old(runs)[id := Turned(old(runs)[id], k.workflow, k.tag)]
      ensures id !in old(runs) ==> !admitted && runs == old(runs)
    {
      var rows := Values();
      listing := rows;
      if k.limit >= 1 {
        AdmissionIff(rows, id, k.tag, k.workflow, k.limit);
        ListedOnce(runs, rows, id, k);
      }
      if id !in runs {
        return false, listing;
      }
      match AdmissionTags(rows, id, k.tag, k.workflow, k.limit) {
        case Admit(tags) =>
          runs := runs[id := runs[id].(tags := tags)];
          return true, listing;
        case _ =>
          if retry {
            runs := runs[id := Denied(k, runs[id])];
          }
          return false, listing;
      }
    }
  }

  /** The executor's own copy of a run. */
  class Handle {
    const id: nat
    var tags: set<string>

    constructor (id: nat, tags: set<string>)
      ensures this.id == id && this.tags == tags
    {
      this.id, this.tags := id, tags;
    }
  }

  class Gate {
    const store: Store

    constructor (store: Store)
      ensures this.store == store
    {
      this.store := store;
    }

    /**
     * Claims or confirms a slot. The run's own copy may be older than its row: an admitted one gains
     * the admitted tag for the tracked one, and keeps the rest of its own.
     */
    method Admit(run: Handle, k: Key) returns (admitted: bool)
      requires Valid(k, store.runs) && Proper(k)
      modifies store, run
      ensures Valid(k, store.runs)
      ensures admitted <==> run.id in SlotHolders(k, store.runs)
      ensures run.tags == if admitted && ADMITTED !in old(run.tags) then old(run.tags) - {TRACKED} + {ADMITTED}
              else old(run.tags)
      ensures run.id in old(store.runs) && old(store.runs[run.id].tags == run.tags) && admitted ==>
                run.tags == store.runs[run.id].tags
      ensures store.runs.Keys == old(store.runs.Keys)
      ensures forall id | id in store.runs && (id != run.id || !Competes(k, old(store.runs)[id])) ::
                store.runs[id] == old(store.runs)[id]
      ensures run.id in store.runs && !admitted && Competes(k, old(store.runs)[run.id]) ==>
                store.runs[run.id].status == Suspended
      ensures run.id in store.runs && admitted ==> store.runs[run.id].status == old(store.runs)[run.id].status
    {
      ghost var rows := store.runs;
      ghost var listing;
      TagIsNoMarker(k);
      admitted, listing := store.TryAdmitSingleton(k, run.id, true);
      AttemptKeeps(k, rows, run.id, listing);
      AdmissionIff(listing, run.id, k.tag, k.workflow, k.limit);
      ActiveRows(k, rows, listing);
      if admitted && ADMITTED !in run.tags {
        run.tags := run.tags - {TRACKED} + {ADMITTED};
      }
    }
  }
}
