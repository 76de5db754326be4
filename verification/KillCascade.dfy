/**
 The cascade of `kill` (gcos/kernel/kernel.py) carried out on the running thread
 pool: one event per victim, with any steps of workers in between. PIDs count
 from 1, positions in the pool's agent list from 0.
 */
module KillCascade {
  import opened Agents
  import opened ProcessTree
  import opened Kernels
  import opened Dispatch
  import opened DispatchInvariant
  import opened DispatchProofs
  import opened DispatchTheorems

  /** The registered agents exist in the pool. */
  ghost predicate InPool(t: Table, s: State) {
    forall x: ProcessTree.Pid :: x in t ==> 1 <= x <= |s.agents|
  }

  /** The table shows the pool's statuses: in the source they are the same objects. */
  ghost predicate Mirrors(t: Table, s: State) {
    InPool(t, s) && forall x: ProcessTree.Pid :: x in t ==> t[x].status == StatusOf(s, x - 1)
  }

  // ----- the events of one cascade -----

  predicate AllInPool(xs: seq<nat>, s: State) {
    forall i :: 0 <= i < |xs| ==> 1 <= xs[i] <= |s.agents|
  }

  function Kills(xs: seq<nat>): seq<Label>
    requires forall i :: 0 <= i < |xs| ==> 1 <= xs[i]
  {
    seq(|xs|, i requires 0 <= i < |xs| => Outside(Event.Kill(xs[i] - 1)))
  }

  function Marked(s: State, xs: seq<nat>): State
    requires AllInPool(xs, s)
    decreases |xs|
  {
    if xs == [] then s
    else
      var s1 := ApplyEvent(s, Event.Kill(xs[0] - 1));
      assert forall i :: 0 <= i < |xs[1..]| ==> xs[1..][i] == xs[i + 1];
      Marked(s1, xs[1..])
  }

  lemma {:induction false} RunKills(c: Config, s: State, xs: seq<nat>)
    requires AllInPool(xs, s)
    ensures Runs(c, s, Kills(xs), Marked(s, xs))
    decreases |xs|
  {
    if xs != [] {
      var s1 := ApplyEvent(s, Event.Kill(xs[0] - 1));
      assert forall i :: 0 <= i < |xs[1..]| ==> xs[1..][i] == xs[i + 1];
      RunKills(c, s1, xs[1..]);
      assert Kills(xs)[1..] == Kills(xs[1..]);
    }
  }

  /** Exactly the listed agents that were unfinished are ZOMBIE; the queue is untouched. */
  lemma {:induction false} MarkedStatus(s: State, xs: seq<nat>, a: nat)
    requires AllInPool(xs, s) && a < |s.agents|
    ensures var u := Marked(s, xs);
      && |u.agents| == |s.agents| && u.queue == s.queue
      && StatusOf(u, a) == if a + 1 in xs then Move(StatusOf(s, a), Zombie) else StatusOf(s, a)
    decreases |xs|
  {
    if xs != [] {
      var s1 := ApplyEvent(s, Event.Kill(xs[0] - 1));
      assert forall i :: 0 <= i < |xs[1..]| ==> xs[1..][i] == xs[i + 1];
      MarkedStatus(s1, xs[1..], a);
      assert xs == [xs[0]] + xs[1..];
    }
  }

  /** `below` is what `descendants_of` returns. */
  ghost predicate ListsDescendants(t: Table, pid: ProcessTree.Pid, below: seq<nat>) {
    && (forall i :: 0 <= i < |below| ==> below[i] in t && IsDescendant(t, pid, below[i]))
    && (forall x: ProcessTree.Pid :: x in t && IsDescendant(t, pid, x) ==> x in below)
  }

  /** `kill` without a worker's step in between: victim, queue, then the descendants. */
  function Cascade(pid: nat, below: seq<nat>): seq<Label>
    requires 1 <= pid && forall i :: 0 <= i < |below| ==> 1 <= below[i]
  {
    [Outside(Event.Kill(pid - 1)), Outside(Event.Unqueue(pid - 1))] + Kills(below)
  }

  /** The victim alone is marked and withdrawn from the queue. */
  function Struck(s: State, pid: nat): State
    requires 1 <= pid <= |s.agents|
  {
    var s1 := ApplyEvent(s, Event.Kill(pid - 1));
    s1.(queue := Dispatch.Remove(s.queue, pid - 1))
  }

  lemma {:induction false} Strikes(c: Config, s: State, pid: nat)
    requires 1 <= pid <= |s.agents| && !IsTerminal(StatusOf(s, pid - 1))
    ensures Runs(c, s, [Outside(Event.Kill(pid - 1)), Outside(Event.Unqueue(pid - 1))], Struck(s, pid))
  {
    var s1 := ApplyEvent(s, Event.Kill(pid - 1));
    var ls := [Outside(Event.Kill(pid - 1)), Outside(Event.Unqueue(pid - 1))];
    assert ls[1..] == [Outside(Event.Unqueue(pid - 1))];
    RunOne(c, s1, Outside(Event.Unqueue(pid - 1)), Struck(s, pid));
  }

  lemma {:induction false} StruckStatus(s: State, pid: nat, a: nat)
    requires 1 <= pid <= |s.agents| && a < |s.agents|
    ensures |Struck(s, pid).agents| == |s.agents| && Struck(s, pid).queue == Dispatch.Remove(s.queue, pid - 1)
    ensures StatusOf(Struck(s, pid), a) == if a + 1 == pid then Move(StatusOf(s, a), Zombie) else StatusOf(s, a)
  {
  }

  lemma {:induction false} KilledStatus(t: Table, pid: ProcessTree.Pid, x: ProcessTree.Pid)
    requires x in t
    ensures x in KilledTable(t, pid)
    ensures KilledTable(t, pid)[x].status == if IsVictim(t, pid, x) then Move(t[x].status, Zombie) else t[x].status
  {
  }

  lemma {:induction false} ListedIs(t: Table, pid: ProcessTree.Pid, below: seq<nat>, x: ProcessTree.Pid)
    requires ListsDescendants(t, pid, below) && x in t
    ensures x in below <==> IsDescendant(t, pid, x)
  {
  }

  lemma {:induction false} CascadeMirrorsOne(
      s: State, s2: State, t: Table, pid: ProcessTree.Pid, below: seq<nat>, x: ProcessTree.Pid)
    requires Mirrors(t, s) && CanKill(t, pid) && x in t && (x in below <==> IsDescendant(t, pid, x))
    requires s2 == Struck(s, pid) && AllInPool(below, s2)
    ensures x <= |Marked(s2, below).agents| && KilledTable(t, pid)[x].status == StatusOf(Marked(s2, below), x - 1)
  {
    StruckStatus(s, pid, x - 1);
    MarkedStatus(s2, below, x - 1);
    KilledStatus(t, pid, x);
  }

  /** The cascade's events do to the pool exactly what `kill` does to the table. */
  lemma {:induction false} CascadeRealisesKill(c: Config, s: State, t: Table, pid: ProcessTree.Pid, below: seq<nat>)
    requires Mirrors(t, s) && CanKill(t, pid) && ListsDescendants(t, pid, below)
    ensures exists u :: Runs(c, s, Cascade(pid, below), u) && Mirrors(KilledTable(t, pid), u)
              && u.queue == Dispatch.Remove(s.queue, pid - 1)
  {
    var s2 := Struck(s, pid);
    StruckStatus(s, pid, pid - 1);
    var u := Marked(s2, below);
    Strikes(c, s, pid);
    RunKills(c, s2, below);
    RunsCompose(c, s, [Outside(Event.Kill(pid - 1)), Outside(Event.Unqueue(pid - 1))], s2, Kills(below), u);
    MarkedStatus(s2, below, pid - 1);
    forall x: ProcessTree.Pid | x in t
      ensures 1 <= x <= |u.agents| && KilledTable(t, pid)[x].status == StatusOf(u, x - 1)
    {
      ListedIs(t, pid, below, x);
      CascadeMirrorsOne(s, s2, t, pid, below, x);
    }
    assert Mirrors(KilledTable(t, pid), u);
  }

  // ----- interleaved with everybody else -----

  /** Once its kill event has happened, whatever else does, an agent is finished. */
  lemma {:induction false} KilledInRun(c: Config, s: State, ls: seq<Label>, t: State, a: Dispatch.Pid)
    requires Inv(s) && Runs(c, s, ls, t) && a < |s.agents| && Outside(Event.Kill(a)) in ls
    ensures a < |t.agents| && IsTerminal(StatusOf(t, a))
    decreases |ls|
  {
    var s1 := Apply(c, s, ls[0]);
    StepKeepsInv(c, s, ls[0]);
    if ls[0] == Outside(Event.Kill(a)) {
      RunAfterFinish(c, s1, ls[1..], t, a);
    } else {
      assert ls == [ls[0]] + ls[1..];
      AgentsStay(c, s, ls[0]);
      KilledInRun(c, s1, ls[1..], t, a);
    }
  }

  lemma {:induction false} AgentsStay(c: Config, s: State, l: Label)
    requires Inv(s) && Enabled(s, l)
    ensures |s.agents| <= |Apply(c, s, l).agents|
  {
    if l.By? && !l.act.Pop? && !l.act.TaskDone? {
      PerformTouches(c, s, l.w, l.act);
    }
  }

  /**
   Kill safety of the whole subtree: once every victim's kill event has happened,
   in any interleaving with workers, spawners and other kills, each victim is
   finished, keeps its status in every continuation, and if it is ZOMBIE its
   result is never forwarded and at most the call of the one step past its checks is charged to it.
   */
  lemma {:induction false} CascadeIsForever(
      c: Config, t: Table, pid: ProcessTree.Pid, s: State, ls: seq<Label>, s': State, ms: seq<Label>, u: State,
      x: ProcessTree.Pid)
    requires Reachable(c, s) && InPool(t, s) && Runs(c, s, ls, s') && Runs(c, s', ms, u)
    requires forall v: ProcessTree.Pid :: v in t && IsVictim(t, pid, v) ==> Outside(Event.Kill(v - 1)) in ls
    requires x in t && IsVictim(t, pid, x)
    ensures x <= |s'.agents| && IsTerminal(StatusOf(s', x - 1))
    ensures x <= |u.agents| && StatusOf(u, x - 1) == StatusOf(s', x - 1)
    ensures StatusOf(s', x - 1).Zombie? ==>
              && x - 1 !in u.piped
              && u.agents[x - 1].block.calls <= s'.agents[x - 1].block.calls + MidCallOf(s'.workers, x - 1)
              && MidCallOf(s'.workers, x - 1) <= 1
  {
    ReachableInv(c, s);
    KilledInRun(c, s, ls, s', x - 1);
    ReachesFurther(c, s, ls, s');
    FinishedInPool(c, s', ms, u, x - 1);
  }

  lemma {:induction false} FinishedInPool(c: Config, s: State, ls: seq<Label>, t: State, a: Dispatch.Pid)
    requires Reachable(c, s) && Runs(c, s, ls, t) && a < |s.agents| && IsTerminal(StatusOf(s, a))
    ensures a < |t.agents| && StatusOf(t, a) == StatusOf(s, a)
    ensures StatusOf(s, a).Zombie? ==>
              && a !in t.piped
              && t.agents[a].block.calls <= s.agents[a].block.calls + MidCallOf(s.workers, a)
              && MidCallOf(s.workers, a) <= 1
  {
    ReachableInv(c, s);
    RunAfterFinish(c, s, ls, t, a);
    if StatusOf(s, a).Zombie? {
      KilledStaysKilled(c, s, ls, t, a);
    }
  }

  lemma {:induction false} ReachesFurther(c: Config, s: State, ls: seq<Label>, t: State)
    requires Reachable(c, s) && Runs(c, s, ls, t)
    ensures Reachable(c, t)
  {
    var init, ks :| Initial(init) && Runs(c, init, ks, s);
    RunsCompose(c, init, ks, s, ls, t);
  }
}
