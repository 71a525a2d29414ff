/**
 * Keyed tasks, at most `limit` at a time. A task is named by the promise it was accepted with, so
 * ids are handed out in arrival order.
 */
module BoundedRunner {
  import opened Common

  datatype Waiting = Waiting(key: string, task: nat)

  function Tasks(ws: seq<Waiting>): (ts: seq<nat>)
    ensures |ts| == |ws| && forall i | 0 <= i < |ws| :: ts[i] == ws[i].task
  {
    seq(|ws|, i requires 0 <= i < |ws| => ws[i].task)
  }

  predicate Rising(s: seq<nat>) { forall i, j | 0 <= i < j < |s| :: s[i] < s[j] }

  /** Every task accepted is running, waiting or resolved, and only one of them. */
  ghost predicate Accounted(accepted: nat, running: set<nat>, waiting: seq<nat>, resolved: seq<nat>) {
    && (forall t: nat :: t < accepted <==> t in running || t in waiting || t in resolved)
    && (forall t | t in running :: t !in waiting && t !in resolved)
    && (forall t | t in waiting :: t !in resolved)
    && (forall i, j | 0 <= i < j < |resolved| :: resolved[i] != resolved[j])
  }

  /** What is started came before what waits, each in arrival order. */
  ghost predicate InOrder(accepted: nat, started: seq<nat>, waiting: seq<nat>) {
    && Rising(started) && Rising(waiting)
    && (forall t | t in started :: t < accepted) && (forall t | t in waiting :: t < accepted)
    && (forall s, w | s in started && w in waiting :: s < w)
  }

  lemma RisingMore(s: seq<nat>, t: nat)
    requires Rising(s) && forall x | x in s :: x < t
    ensures Rising(s + [t])
  {
    assert forall i | 0 <= i < |s| :: s[i] in s;
  }

  /** A task accepted with a slot free starts at once; nothing waits then. */
  lemma StartsNow(accepted: nat, running: set<nat>, started: seq<nat>, resolved: seq<nat>)
    requires Accounted(accepted, running, [], resolved) && InOrder(accepted, started, [])
    ensures accepted !in running && Accounted(accepted + 1, running + {accepted}, [], resolved)
    ensures InOrder(accepted + 1, started + [accepted], [])
  {
    RisingMore(started, accepted);
  }

  lemma Waits(accepted: nat, running: set<nat>, started: seq<nat>, waiting: seq<nat>, resolved: seq<nat>)
    requires Accounted(accepted, running, waiting, resolved) && InOrder(accepted, started, waiting)
    ensures Accounted(accepted + 1, running, waiting + [accepted], resolved)
    ensures InOrder(accepted + 1, started, waiting + [accepted])
  {
    RisingMore(waiting, accepted);
    assert forall x :: x in waiting + [accepted] <==> x in waiting || x == accepted;
  }

  lemma Settles(accepted: nat, running: set<nat>, waiting: seq<nat>, resolved: seq<nat>, task: nat)
    requires Accounted(accepted, running, waiting, resolved) && task in running
    ensures Accounted(accepted, running - {task}, waiting, resolved + [task])
  {
    assert forall x :: x in resolved + [task] <==> x in resolved || x == task;
    assert forall i | 0 <= i < |resolved| :: resolved[i] in resolved;
  }

  /** The oldest waiting task starts. */
  lemma NextStarts(accepted: nat, running: set<nat>, started: seq<nat>, waiting: seq<nat>, resolved: seq<nat>)
    requires Accounted(accepted, running, waiting, resolved) && InOrder(accepted, started, waiting) && waiting != []
    ensures waiting[0] !in running
    ensures Accounted(accepted, running + {waiting[0]}, waiting[1..], resolved)
    ensures InOrder(accepted, started + [waiting[0]], waiting[1..])
  {
    assert waiting == [waiting[0]] + waiting[1..];
    assert forall x :: x in waiting <==> x == waiting[0] || x in waiting[1..];
    forall w | w in waiting[1..] ensures waiting[0] < w {
      var i :| 0 <= i < |waiting[1..]| && waiting[1..][i] == w;
      assert waiting[i + 1] == w;
    }
    assert waiting[0] in waiting;
    RisingMore(started, waiting[0]);
  }

  predicate OnePerKey(ws: seq<Waiting>) { forall i, j | 0 <= i < j < |ws| :: ws[i].key != ws[j].key }

  class Runner {
    const limit: nat
    var active: nat
    var peak: nat
    /** Waiting tasks in arrival order; their promises are the tasks' own. */
    var waiting: seq<Waiting>

    /** How many promises have been handed out. */
    var accepted: nat

    ghost var running: set<nat>
    ghost var started: seq<nat>
    ghost var resolved: seq<nat>

    /**
     * At most `limit` tasks run; tasks wait only while every slot is busy, one per key, in arrival
     * order; tasks start in arrival order, each at most once; each promise resolves at most once.
     */
    ghost predicate Valid()
      reads this
    {
      && limit >= 1
      && active == |running| <= limit && active <= peak <= limit
      && (waiting != [] ==> active == limit)
      && OnePerKey(waiting) && InOrder(accepted, started, Tasks(waiting)) && (forall t | t in running :: t in started)
      && Accounted(accepted, running, Tasks(waiting), resolved)
    }

    constructor (limit: nat)
      requires limit >= 1
      ensures Valid() && this.limit == limit && accepted == 0 && peak == 0
    {
      this.limit, active, peak, waiting := limit, 0, 0, [];
      accepted, running, started, resolved := 0, {}, [], [];
    }

    /** Runs the task now, queues it, or joins the one already waiting under its key. */
    method Submit(key: string) returns (promise: nat)
      requires Valid()
      modifies this
      ensures Valid() && promise < accepted && resolved == old(resolved)
      ensures peak == if active > old(peak) then active else old(peak)
      ensures old(active) < limit ==>
                promise == old(accepted) && started == old(started) + [promise] && waiting == old(waiting)
                && running == old(running) + {promise} && accepted == old(accepted) + 1
      ensures old(active) == limit ==> started == old(started) && running == old(running)
      ensures old(active) == limit && (exists i :: 0 <= i < |old(waiting)| && old(waiting)[i].key == key) ==>
                waiting == old(waiting) && accepted == old(accepted) && Waiting(key, promise) in waiting
      ensures old(active) == limit && !(exists i :: 0 <= i < |old(waiting)| && old(waiting)[i].key == key) ==>
                waiting == old(waiting) + [Waiting(key, old(accepted))] && promise == old(accepted)
                && accepted == old(accepted) + 1
    {
      if active < limit {
        active := active + 1;
        peak := if active > peak then active else peak;
        promise := accepted;
        assert Tasks(waiting) == [];
        StartsNow(accepted, running, started, resolved);
        accepted, running, started := accepted + 1, running + {accepted}, started + [accepted];
        return;
      }
      var i := 0;
      while i < |waiting|
        invariant 0 <= i <= |waiting| && forall j | 0 <= j < i :: waiting[j].key != key
      {
        if waiting[i].key == key {
          assert Tasks(waiting)[i] in Tasks(waiting);
          return waiting[i].task;
        }
        i := i + 1;
      }
      promise := accepted;
      Waits(accepted, running, started, Tasks(waiting), resolved);
      waiting := waiting + [Waiting(key, accepted)];
      assert Tasks(waiting) == Tasks(old(waiting)) + [promise];
      accepted := accepted + 1;
    }

    /** A running task settles: its promise resolves, and the oldest waiting task takes its slot. */
    method Settle(task: nat)
      requires Valid() && task in running
      modifies this
      ensures Valid() && resolved == old(resolved) + [task] && accepted == old(accepted) && peak == old(peak)
      ensures old(waiting) == [] ==>
                active == old(active) - 1 && started == old(started) && running == old(running) - {task}
      ensures old(waiting) != [] ==>
              active == old(active) && started == old(started) + [old(waiting)[0].task] && waiting == old(waiting)[1..]
              && running == old(running) - {task} + {old(waiting)[0].task}
    {
      Settles(accepted, running, Tasks(waiting), resolved, task);
      assert |running - {task}| == |running| - 1;
      resolved := resolved + [task];
      running := running - {task};
      if waiting == [] {
        active := active - 1;
      } else {
        StartNext();
      }
    }

    /** The oldest waiting task takes the slot just left. */
    method StartNext()
      requires waiting != [] && limit >= 1 && active == limit == |running| + 1 && active <= peak <= limit
      requires OnePerKey(waiting) && InOrder(accepted, started, Tasks(waiting))
               && (forall t | t in running :: t in started)
      requires Accounted(accepted, running, Tasks(waiting), resolved)
      modifies this`waiting, this`running, this`started
      ensures Valid() && waiting == old(waiting)[1..] && started == old(started) + [old(waiting)[0].task]
      ensures running == old(running) + {old(waiting)[0].task}
    {
      var next := waiting[0];
      NextStarts(accepted, running, started, Tasks(waiting), resolved);
      assert Tasks(waiting)[1..] == Tasks(waiting[1..]);
      waiting := waiting[1..];
      running, started := running + {next.task}, started + [next.task];
    }

    /** Drops every waiting task; their promises resolve. */
    method Clear()
      requires Valid()
      modifies this
      ensures Valid() && waiting == [] && active == old(active) && started == old(started) && running == old(running)
      ensures resolved == old(resolved) + Tasks(old(waiting)) && accepted == old(accepted) && peak == old(peak)
    {
      Dropped(accepted, running, Tasks(waiting), resolved);
      resolved := resolved + Tasks(waiting);
      waiting := [];
      assert Tasks(waiting) == [];
    }
  }

  lemma Dropped(accepted: nat, running: set<nat>, waiting: seq<nat>, resolved: seq<nat>)
    requires Accounted(accepted, running, waiting, resolved) && Rising(waiting)
    ensures Accounted(accepted, running, [], resolved + waiting)
  {
    var all := resolved + waiting;
    assert forall t :: t in all <==> t in resolved || t in waiting;
    forall i, j | 0 <= i < j < |all| ensures all[i] != all[j] {
      if i < |resolved| <= j { assert all[j] == waiting[j - |resolved|] && all[j] in waiting; }
    }
  }
}
