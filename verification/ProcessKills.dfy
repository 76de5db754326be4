/**
 Kill safety of the process-backed pool (gcos/kernel/process_pool.py). A kill that
 lands between the fork and the registration of the child signals nobody, so the
 child goes on; what it can still spend is bounded by its reservation.
 */
module ProcessKills {
  import opened Basics
  import opened Agents
  import opened Steps
  import opened ProcessPool

  /** Calls that a slot's child has made for agent a. */
  function MadeFor(c: Slot, a: Pid): nat {
    if Serves(c, a) then Made(c) else 0
  }

  /** Calls that it may still make. */
  function RestFor(c: Slot, a: Pid): nat {
    if c.Live? && c.a == a && !IsTerminal(c.child.status) && !c.over then Max(0, c.child.quota) else 0
  }

  function SumMadeFor(cs: seq<Slot>, a: Pid): nat {
    if cs == [] then 0 else MadeFor(cs[0], a) + SumMadeFor(cs[1..], a)
  }

  function SumRestFor(cs: seq<Slot>, a: Pid): nat {
    if cs == [] then 0 else RestFor(cs[0], a) + SumRestFor(cs[1..], a)
  }

  lemma {:induction false} UpdateFor(cs: seq<Slot>, w: nat, c: Slot, a: Pid)
    requires w < |cs|
    ensures SumMadeFor(cs[w := c], a) == SumMadeFor(cs, a) - MadeFor(cs[w], a) + MadeFor(c, a)
    ensures SumRestFor(cs[w := c], a) == SumRestFor(cs, a) - RestFor(cs[w], a) + RestFor(c, a)
  {
    if w == 0 {
      assert cs[w := c][1..] == cs[1..];
    } else {
      assert cs[w := c][1..] == cs[1..][w - 1 := c];
      UpdateFor(cs[1..], w - 1, c, a);
    }
  }

  /** All calls made on behalf of agent a, reported or not. */
  function Spent(s: State, a: Pid): nat
    requires a < |s.agents|
  {
    s.agents[a].made + SumMadeFor(s.slots, a)
  }

  lemma {:induction false} ChildStepSpends(c: Slot, world: World, a: Pid)
    requires c.Live? && c.before <= c.child.calls && MayStep(c)
    ensures MadeFor(DoChildStep(c, world), a) + RestFor(DoChildStep(c, world), a) <= MadeFor(c, a) + RestFor(c, a)
  {
    EveryStepMeetsTheContract(c.child, world);
  }

  lemma {:induction false} StepSpends(s: State, l: Label, a: Pid)
    requires Inv(s) && Enabled(s, l) && a < |s.agents| && IsTerminal(s.agents[a].block.status)
    ensures var s' := Apply(s, l);
      a < |s'.agents| && Spent(s', a) + SumRestFor(s'.slots, a) <= Spent(s, a) + SumRestFor(s.slots, a)
  {
    var s' := Apply(s, l);
    if !(l.Spawn? || l.Kill? || l.Unqueue? || l.TopUp?) {
      UpdateFor(s.slots, l.w, s'.slots[l.w], a);
      assert SlotOk(s.slots[l.w], s.agents);
      if l.ChildStep? {
        ChildStepSpends(s.slots[l.w], l.world, a);
      }
    }
  }

  lemma {:induction false} RunSpends(s: State, ls: seq<Label>, t: State, a: Pid)
    requires Inv(s) && Runs(s, ls, t) && a < |s.agents| && IsTerminal(s.agents[a].block.status)
    ensures a < |t.agents| && Spent(t, a) + SumRestFor(t.slots, a) <= Spent(s, a) + SumRestFor(s.slots, a)
    decreases |ls|
  {
    if ls != [] {
      var s' := Apply(s, ls[0]);
      StepSpends(s, ls[0], a);
      StepKeepsInv(s, ls[0]);
      assert Runs(s, [ls[0]], s') by {
        assert [ls[0]][1..] == [];
      }
      FinishedForever(s, [ls[0]], s', a);
      RunSpends(s', ls[1..], t, a);
    }
  }

  predicate HasLiveChild(cs: seq<Slot>, a: Pid) {
    exists w :: 0 <= w < |cs| && cs[w].Live? && cs[w].a == a
  }

  lemma {:induction false} NoChildNoCalls(cs: seq<Slot>, a: Pid)
    requires forall w :: 0 <= w < |cs| ==> !(cs[w].Live? && cs[w].a == a)
    ensures SumMadeFor(cs, a) == 0 && SumRestFor(cs, a) == 0
  {
    if cs != [] {
      NoChildNoCalls(cs[1..], a);
    }
  }

  lemma {:induction false} OneChildPays(cs: seq<Slot>, w: nat, a: Pid)
    requires OneServer(cs) && w < |cs| && cs[w].Live? && cs[w].a == a
    ensures SumMadeFor(cs, a) == MadeFor(cs[w], a) && SumRestFor(cs, a) == RestFor(cs[w], a)
  {
    var rest := cs[w := Free];
    UpdateFor(cs, w, Free, a);
    NoChildNoCalls(rest, a);
  }

  /**
   In every continuation after a kill: without a live child the agent makes no
   further call; with one, everything its child ever makes stays within the reservation.
   */
  lemma {:induction false} KilledSpendsAtMostItsReservation(s: State, ls: seq<Label>, t: State, a: Pid)
    requires Reachable(s) && Runs(s, ls, t) && a < |s.agents| && IsTerminal(s.agents[a].block.status)
    ensures a < |t.agents| && t.agents[a].block.status == s.agents[a].block.status
    ensures !HasLiveChild(s.slots, a) ==> Spent(t, a) <= Spent(s, a)
    ensures forall w :: 0 <= w < |s.slots| && s.slots[w].Live? && s.slots[w].a == a ==>
              Spent(t, a) <= s.slots[w].reserve <= Max(0, s.agents[a].granted)
  {
    ReachableInv(s);
    FinishedForever(s, ls, t, a);
    RunSpends(s, ls, t, a);
    if !HasLiveChild(s.slots, a) {
      NoChildNoCalls(s.slots, a);
    }
    forall w | 0 <= w < |s.slots| && s.slots[w].Live? && s.slots[w].a == a
      ensures Spent(t, a) <= s.slots[w].reserve <= Max(0, s.agents[a].granted)
    {
      OneChildPays(s.slots, w, a);
      assert SlotOk(s.slots[w], s.agents);
    }
  }
}
