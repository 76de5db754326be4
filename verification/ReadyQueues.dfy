/**
 The ready queue (gcos/kernel/ready_queue.py) and the priority scheduler's choice
 from it (gcos/kernel/scheduler.py). Priorities and creation times of a control
 block never change, so an agent's rank depends only on the time of the pick.
 Times and rates are reals: rounding is not modelled.
 */
module ReadyQueues {
  import opened Basics
  import opened Agents

  // ----- effective priority -----

  datatype Aging = Aging(rate: real, maxBonus: real)

  function Least(a: real, b: real): real {
    if b < a then b else a
  }

  function Waited(p: ControlBlock, now: real): real {
    if now - p.createdAt > 0.0 then now - p.createdAt else 0.0
  }

  function Effective(ag: Aging, p: ControlBlock, now: real): real {
    if ag.rate <= 0.0 then p.priority as real
    else p.priority as real + Least(ag.maxBonus, Waited(p, now) * ag.rate)
  }

  /** The order of the keys (effective priority, -created_at). */
  predicate Better(ag: Aging, x: ControlBlock, y: ControlBlock, now: real) {
    var ex, ey := Effective(ag, x, now), Effective(ag, y, now);
    ex > ey || (ex == ey && x.createdAt < y.createdAt)
  }

  /** At least the priority, and strictly older: what a submitter can see beforehand. */
  predicate Dominates(x: ControlBlock, y: ControlBlock) {
    x.priority >= y.priority && x.createdAt < y.createdAt
  }

  /** Higher base priority, or the same and strictly older. */
  predicate Outranks(x: ControlBlock, y: ControlBlock) {
    x.priority > y.priority || (x.priority == y.priority && x.createdAt < y.createdAt)
  }

  /** The aging bonus has reached its cap. */
  predicate FullyAged(ag: Aging, p: ControlBlock, now: real) {
    ag.rate > 0.0 && Waited(p, now) * ag.rate >= ag.maxBonus
  }

  lemma {:induction false} ScaleMonotone(a: real, b: real, k: real)
    requires a <= b && k > 0.0
    ensures a * k <= b * k
  {
    assert (b - a) * k >= 0.0;
  }

  lemma {:induction false} DominatesMeansBetter(ag: Aging, x: ControlBlock, y: ControlBlock, now: real)
    requires Dominates(x, y)
    ensures Better(ag, x, y, now)
  {
    assert x.priority as real >= y.priority as real;
    if ag.rate > 0.0 {
      ScaleMonotone(Waited(y, now), Waited(x, now), ag.rate);
    }
  }

  /** Against a fully aged agent only a base priority or age advantage is left. */
  lemma {:induction false} OnlySuperiorsBeatTheAged(ag: Aging, x: ControlBlock, y: ControlBlock, now: real)
    requires FullyAged(ag, y, now) && Better(ag, x, y, now)
    ensures Outranks(x, y)
  {
    assert Effective(ag, x, now) <= x.priority as real + ag.maxBonus;
    assert Effective(ag, y, now) == y.priority as real + ag.maxBonus;
  }

  /** The bonus is still growing. */
  predicate StillAging(ag: Aging, p: ControlBlock, now: real) {
    ag.rate > 0.0 && p.createdAt <= now && (now - p.createdAt) * ag.rate <= ag.maxBonus
  }

  /** The lead in waiting makes up for the lag in base priority. */
  predicate LeadOutweighs(ag: Aging, x: ControlBlock, y: ControlBlock) {
    (y.createdAt - x.createdAt) * ag.rate > (y.priority - x.priority) as real
  }

  lemma {:induction false} ScaleSplits(a: real, b: real, c: real, k: real)
    ensures (a - b) * k == (c - b) * k - (c - a) * k
  {
  }

  /**
   The exact order below the cap: waiting longer is worth its rate in priority,
   and ties go to the older agent.
   */
  lemma {:induction false} BelowTheCapWaitingCounts(ag: Aging, x: ControlBlock, y: ControlBlock, now: real)
    requires StillAging(ag, x, now) && StillAging(ag, y, now)
    ensures Better(ag, x, y, now) <==>
            LeadOutweighs(ag, x, y)
            || ((y.createdAt - x.createdAt) * ag.rate == (y.priority - x.priority) as real && x.createdAt < y.createdAt)
  {
    ScaleSplits(y.createdAt, x.createdAt, now, ag.rate);
    assert (y.priority - x.priority) as real == y.priority as real - x.priority as real;
    assert Effective(ag, x, now) == x.priority as real + (now - x.createdAt) * ag.rate;
    assert Effective(ag, y, now) == y.priority as real + (now - y.createdAt) * ag.rate;
  }

  /** At the cap only the base rank counts. */
  lemma {:induction false} AtTheCapRankDecides(ag: Aging, x: ControlBlock, y: ControlBlock, now: real)
    requires FullyAged(ag, x, now) && FullyAged(ag, y, now)
    ensures Better(ag, x, y, now) <==> Outranks(x, y)
  {
  }

  /** So an agent that has waited long enough overtakes one of higher base priority. */
  predicate Overtakes(ag: Aging, x: ControlBlock, y: ControlBlock, now: real) {
    StillAging(ag, x, now) && x.createdAt <= y.createdAt <= now && LeadOutweighs(ag, x, y)
  }

  lemma {:induction false} WaitingLongEnoughWins(ag: Aging, x: ControlBlock, y: ControlBlock, now: real)
    requires Overtakes(ag, x, y, now)
    ensures Better(ag, x, y, now)
  {
    ScaleMonotone(now - y.createdAt, now - x.createdAt, ag.rate);
    BelowTheCapWaitingCounts(ag, x, y, now);
  }

  /** With aging switched off the choice is strict priority, oldest first. */
  lemma {:induction false} WithoutAgingRankDecides(ag: Aging, x: ControlBlock, y: ControlBlock, now: real)
    requires ag.rate <= 0.0
    ensures Better(ag, x, y, now) <==> Outranks(x, y)
  {
  }

  // ----- selection -----

  /** Position `i` holds the first maximum of the keys. */
  predicate IsBest(ag: Aging, q: seq<ControlBlock>, i: nat, now: real) {
    && i < |q|
    && (forall j :: 0 <= j < |q| ==> !Better(ag, q[j], q[i], now))
    && (forall j :: 0 <= j < i ==> Better(ag, q[i], q[j], now))
  }

  lemma {:induction false} BestIsUnique(ag: Aging, q: seq<ControlBlock>, i: nat, j: nat, now: real)
    requires IsBest(ag, q, i, now) && IsBest(ag, q, j, now)
    ensures i == j
  {
    assert !Better(ag, q[j], q[i], now) && !Better(ag, q[i], q[j], now);
  }

  method FindBest(ag: Aging, q: seq<ControlBlock>, now: real) returns (best: nat)
    requires q != []
    ensures IsBest(ag, q, best, now)
  {
    best := 0;
    var i := 1;
    while i < |q|
      invariant 1 <= i <= |q|
      invariant IsBest(ag, q[..i], best, now)
    {
      if Better(ag, q[i], q[best], now) {
        best := i;
      }
      i := i + 1;
    }
    assert q[..i] == q;
  }

  // ----- whole runs of the priority queue -----

  datatype Event =
    | Arrive(p: ControlBlock)          // a spawn, a requeue after a step, or the end of a wait
    | Pick(i: nat, now: real)          // some worker takes the best at this time
    | Withdraw(i: nat)                 // a kill removes a queued agent

  predicate Allowed(ag: Aging, q: seq<ControlBlock>, e: Event) {
    match e
    case Arrive(p) => p !in q
    case Pick(i, now) => IsBest(ag, q, i, now)
    case Withdraw(i) => i < |q|
  }

  function After(ag: Aging, q: seq<ControlBlock>, e: Event): seq<ControlBlock>
    requires Allowed(ag, q, e)
  {
    match e
    case Arrive(p) => q + [p]
    case Pick(i, _) => Without(q, i)
    case Withdraw(i) => Without(q, i)
  }

  predicate History(ag: Aging, q: seq<ControlBlock>, es: seq<Event>)
    decreases |es|
  {
    es == [] || (Allowed(ag, q, es[0]) && History(ag, After(ag, q, es[0]), es[1..]))
  }

  /** The agents handed out, in order. */
  function Dispatched(ag: Aging, q: seq<ControlBlock>, es: seq<Event>): seq<ControlBlock>
    requires History(ag, q, es)
    decreases |es|
  {
    if es == [] then []
    else
      var rest := Dispatched(ag, After(ag, q, es[0]), es[1..]);
      if es[0].Pick? then [q[es[0].i]] + rest else rest
  }

  /** `p` stays in the queue throughout: nothing picks or withdraws it. */
  predicate Stays(ag: Aging, q: seq<ControlBlock>, es: seq<Event>, p: ControlBlock)
    requires History(ag, q, es)
    decreases |es|
  {
    p in q && (es == [] || Stays(ag, After(ag, q, es[0]), es[1..], p))
  }

  lemma {:induction false} WithoutDrops(q: seq<ControlBlock>, i: nat)
    requires i < |q| && Distinct(q)
    ensures Distinct(Without(q, i)) && q[i] !in Without(q, i)
    ensures forall p :: p in q && p != q[i] ==> p in Without(q, i)
  {
    forall p | p in q && p != q[i]
      ensures p in Without(q, i)
    {
      var k :| 0 <= k < |q| && q[k] == p;
      assert Without(q, i)[if k < i then k else k - 1] == p;
    }
  }

  /**
   Dominance over whole runs: for every rate, cap, pick time and pattern of
   arrivals and kills, no agent is handed out while one that dominates it waits.
   */
  lemma {:induction false} NeverPassedOver(ag: Aging, q: seq<ControlBlock>, es: seq<Event>, x: ControlBlock)
    requires Distinct(q) && History(ag, q, es) && Stays(ag, q, es, x)
    ensures forall k :: 0 <= k < |Dispatched(ag, q, es)| ==> !Dominates(x, Dispatched(ag, q, es)[k])
    decreases |es|
  {
    if es != [] {
      var e := es[0];
      var q' := After(ag, q, e);
      if e.Arrive? {
        assert Distinct(q');
      } else {
        WithoutDrops(q, e.i);
      }
      NeverPassedOver(ag, q', es[1..], x);
      if e.Pick? {
        var j :| 0 <= j < |q| && q[j] == x;
        if Dominates(x, q[e.i]) {
          DominatesMeansBetter(ag, x, q[e.i], e.now);
          assert false;
        }
        var rest := Dispatched(ag, q', es[1..]);
        assert forall k :: 1 <= k < |[q[e.i]] + rest| ==> ([q[e.i]] + rest)[k] == rest[k - 1];
      }
    }
  }

  /** Every pick of the run happens when `p` is fully aged. */
  predicate AgedThroughout(ag: Aging, es: seq<Event>, p: ControlBlock) {
    forall k :: 0 <= k < |es| && es[k].Pick? ==> FullyAged(ag, p, es[k].now)
  }

  /**
   The anti-starvation bound: while a fully aged agent waits, everyone handed
   out before it outranks it or has exactly its rank.
   */
  lemma {:induction false} AgedAgentsYieldOnlyToSuperiors(
      ag: Aging, q: seq<ControlBlock>, es: seq<Event>, y: ControlBlock)
    requires History(ag, q, es) && Stays(ag, q, es, y) && AgedThroughout(ag, es, y)
    ensures forall k :: 0 <= k < |Dispatched(ag, q, es)| ==> !Outranks(y, Dispatched(ag, q, es)[k])
    decreases |es|
  {
    if es != [] {
      var e, q' := es[0], After(ag, q, es[0]);
      assert AgedThroughout(ag, es[1..], y) by {
        assert forall k :: 0 <= k < |es[1..]| ==> es[1..][k] == es[k + 1];
      }
      AgedAgentsYieldOnlyToSuperiors(ag, q', es[1..], y);
      if e.Pick? {
        var j :| 0 <= j < |q| && q[j] == y;
        AgedIsNotBeatenByInferiors(ag, y, q[e.i], e.now);
        var rest := Dispatched(ag, q', es[1..]);
        assert forall k :: 1 <= k < |[q[e.i]] + rest| ==> ([q[e.i]] + rest)[k] == rest[k - 1];
      }
    }
  }

  lemma {:induction false} AgedIsNotBeatenByInferiors(ag: Aging, y: ControlBlock, x: ControlBlock, now: real)
    requires FullyAged(ag, y, now) && !Better(ag, y, x, now)
    ensures !Outranks(y, x)
  {
    assert Effective(ag, x, now) <= x.priority as real + ag.maxBonus;
    assert Effective(ag, y, now) == y.priority as real + ag.maxBonus;
  }

  // ----- the queue itself -----

  /** Where `list.remove` finds its argument. */
  function IndexOf(q: seq<ControlBlock>, p: ControlBlock): (i: Option<nat>)
    ensures i.None? <==> p !in q
    ensures i.Some? ==> i.value < |q| && q[i.value] == p && p !in q[..i.value]
  {
    if q == [] then None
    else if q[0] == p then Some(0)
    else
      var r := IndexOf(q[1..], p);
      if r.None? then None else
        assert q[..r.value + 1] == [q[0]] + q[1..][..r.value];
        Some(r.value + 1)
  }

  class ReadyQueue {
    var q: seq<ControlBlock>
    var inFlight: nat

    constructor ()
      ensures q == [] && inFlight == 0
    {
      q, inFlight := [], 0;
    }

    predicate IsDrained()
      reads this
    {
      q == [] && inFlight == 0
    }

    /** Refuses a finished agent; otherwise it is READY and last. */
    method Put(p: ControlBlock, now: real) returns (ok: bool)
      requires p.Valid()
      modifies this`q, p`status, p`startedAt, p`finishedAt
      ensures p.Valid()
      ensures ok <==> !old(IsTerminal(p.status))
      ensures ok ==> q == old(q) + [p] && p.status == Ready
      ensures !ok ==> q == old(q) && p.status == old(p.status)
    {
      if IsTerminal(p.status) {
        return false;
      }
      var _, _ := p.Transition(Ready, now);
      q := q + [p];
      return true;
    }

    /** Dequeue and in-flight count move together. */
    method PopLeft() returns (r: Option<ControlBlock>)
      modifies this
      ensures r.None? ==> old(q) == [] && q == [] && inFlight == old(inFlight)
      ensures r.Some? ==> old(q) == [r.value] + q && inFlight == old(inFlight) + 1
    {
      if q == [] {
        return None;
      }
      r := Some(q[0]);
      q := q[1..];
      inFlight := inFlight + 1;
    }

    /** Hands out exactly the first best entry, and removes exactly that one. */
    method PopBest(ag: Aging, now: real) returns (r: Option<ControlBlock>, ghost at: nat)
      modifies this
      ensures r.None? ==> old(q) == [] && q == [] && inFlight == old(inFlight)
      ensures r.Some? ==> IsBest(ag, old(q), at, now) && r.value == old(q)[at]
      ensures r.Some? ==> q == Without(old(q), at) && inFlight == old(inFlight) + 1
      ensures forall x <- old(q) :: r.Some? ==> !Dominates(x, r.value) && !Overtakes(ag, x, r.value, now)
    {
      at := 0;
      if q == [] {
        return None, 0;
      }
      var best := FindBest(ag, q, now);
      at := best;
      r := Some(q[best]);
      forall x | x in q
        ensures !Dominates(x, q[best]) && !Overtakes(ag, x, q[best], now)
      {
        var j :| 0 <= j < |q| && q[j] == x;
        if Dominates(x, q[best]) {
          DominatesMeansBetter(ag, x, q[best], now);
          assert false;
        }
        if Overtakes(ag, x, q[best], now) {
          WaitingLongEnoughWins(ag, x, q[best], now);
          assert false;
        }
      }
      q := Without(q, best);
      inFlight := inFlight + 1;
    }

    /** Withdraws a queued agent without counting it as dispatched; `wakes` signals those waiting for drain. */
    method Pop(p: ControlBlock) returns (found: bool, wakes: bool)
      modifies this`q
      ensures found <==> p in old(q)
      ensures found ==> exists i: nat :: i < |old(q)| && old(q)[i] == p && p !in old(q)[..i] && q == Without(old(q), i)
      ensures !found ==> q == old(q)
      ensures wakes <==> found && IsDrained()
    {
      var i := IndexOf(q, p);
      if i.None? {
        return false, false;
      }
      q := Without(q, i.value);
      return true, q == [] && inFlight == 0;
    }

    method TaskDone() returns (wakes: bool)
      modifies this`inFlight
      ensures old(inFlight) > 0 ==> inFlight == old(inFlight) - 1
      ensures old(inFlight) == 0 ==> inFlight == 0
      ensures wakes <==> IsDrained()
    {
      if inFlight > 0 {
        inFlight := inFlight - 1;
      }
      return q == [] && inFlight == 0;
    }
  }
}
