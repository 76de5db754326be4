/**
 Admission control of the process-backed pool (gcos/kernel/process_pool.py).
 Each agent runs in a forked child on a copy of its control block whose quota is
 the reservation. The child reports its result over a pipe, or dies silently
 (killed, or its report is corrupt). Nothing requeues an agent after its child.
 */
module ProcessPool {
  import opened Basics
  import opened Agents
  import opened Steps
  import opened Quotas

  type Pid = nat

  /** `block` is the parent's view. `granted` and `made` are history: quota at spawn, calls really made. */
  datatype Agent = Agent(block: Block, granted: int, made: nat, queued: bool)

  /** A live child: the agent's quota before, the reservation, and the child's own copy of the block. */
  datatype Slot =
    | Free
    | Picked(a: Pid)
    | Cleared(a: Pid)
    | Live(a: Pid, orig: int, reserve: nat, before: nat, child: Block, steps: nat, over: bool)

  /** What was finally charged for one child, and what it had really called. */
  datatype Charge = Charge(charged: nat, calls: nat, reported: bool)

  datatype State = State(agents: seq<Agent>, slots: seq<Slot>, quota: Account, charges: seq<Charge>)

  datatype Label =
    | Spawn(kind: Kind, granted: int)
    | Pick(w: nat, a: Pid)
    | Check(w: nat)                     // drop an agent that finished while queued
    | Repark(w: nat, expired: bool)     // no upstream input yet
    | Reserve(w: nat)                   // acquire_up_to, then fork; or block on a dry budget
    | ChildRaises(w: nat)               // the child cannot build its client
    | ChildStep(w: nat, world: World)
    | Report(w: nat)
    | DieSilently(w: nat)
    | Kill(a: Pid)                      // kill or reap: transition(ZOMBIE)
    | Unqueue(a: Pid)                   // kill: queue.pop, for the victim only
    | TopUp(n: nat)

  predicate Serves(c: Slot, a: Pid) {
    !c.Free? && c.a == a
  }

  predicate Served(slots: seq<Slot>, a: Pid) {
    exists w :: 0 <= w < |slots| && Serves(slots[w], a)
  }

  predicate Serving(s: State, w: nat) {
    w < |s.slots| && !s.slots[w].Free? && s.slots[w].a < |s.agents|
  }

  predicate HasChild(s: State, w: nat) {
    Serving(s, w) && s.slots[w].Live?
  }

  /** The child's loop: until terminal, told to stop, or the step cap. */
  predicate MayStep(c: Slot) {
    c.Live? && !c.over && !IsTerminal(c.child.status) && c.steps < CHILD_STEP_CAP
  }

  predicate Enabled(s: State, l: Label) {
    match l
    case Spawn(_, _) => true
    case Pick(w, a) => w < |s.slots| && s.slots[w].Free? && a < |s.agents| && s.agents[a].queued
    case Check(w) => Serving(s, w) && s.slots[w].Picked?
    case Repark(w, _) => Serving(s, w) && s.slots[w].Cleared?
    case Reserve(w) => Serving(s, w) && s.slots[w].Cleared?
    case ChildRaises(w) => HasChild(s, w) && s.slots[w].steps == 0 && !s.slots[w].over
    case ChildStep(w, world) => HasChild(s, w) && MayStep(s.slots[w]) && !world.killed
    case Report(w) => HasChild(s, w) && !MayStep(s.slots[w])
    case DieSilently(w) => HasChild(s, w)
    case Kill(a) => a < |s.agents|
    case Unqueue(a) => a < |s.agents| && s.agents[a].block.status.Zombie?
    case TopUp(_) => true
  }

  /** `queue.put`: refused for a finished agent. */
  function Requeue(g: Agent): Agent {
    if IsTerminal(g.block.status) then g else g.(queued := true, block := g.block.(status := Ready))
  }

  function SetAgent(s: State, a: Pid, g: Agent): State
    requires a < |s.agents|
  {
    s.(agents := s.agents[a := g])
  }

  function SetSlot(s: State, w: nat, c: Slot): State
    requires w < |s.slots|
  {
    s.(slots := s.slots[w := c])
  }

  function DoRepark(s: State, w: nat, expired: bool): State
    requires Serving(s, w)
  {
    var a := s.slots[w].a;
    var g := s.agents[a];
    SetSlot(SetAgent(s, a, if expired then g.(block := With(g.block, Error)) else Requeue(g)), w, Free)
  }

  function Launch(g: Agent, a: Pid, reserve: nat): Slot {
    Live(a, g.block.quota, reserve, g.block.calls, g.block.(quota := reserve), 0, false)
  }

  /** Reserve before forking; a dry budget requeues the agent instead. */
  function DoReserve(s: State, w: nat): State
    requires Serving(s, w)
  {
    var a := s.slots[w].a;
    var g := s.agents[a];
    var reserve := Grant(s.quota, g.block.quota);
    if reserve == 0 && g.block.quota > 0 then
      SetSlot(SetAgent(s, a, Requeue(g)), w, Free)
    else
      var g' := g.(block := With(g.block, Running));
      SetSlot(SetAgent(s, a, g'.(block := g'.block.(quota := reserve))), w, Launch(g', a, reserve))
      .(quota := Take(s.quota, reserve))
  }

  function DoChildStep(c: Slot, world: World): Slot
    requires c.Live?
  {
    var (b, out) := RunStep(c.child, world);
    c.(child := if out.Crashed? then b.(status := Error) else b, steps := c.steps + 1, over := out != Returned(true))
  }

  /** The parent's block after the report `r`, or after none: a finished block keeps its status. */
  function Applied(b: Block, r: Option<Block>): Block {
    match r
    case None => With(b, Error)
    case Some(c) => b.(status := if IsTerminal(b.status) then b.status else c.status, calls := c.calls)
  }

  /** The report is applied and the unspent rest of the reservation is refunded. */
  function DoReport(s: State, w: nat): State
    requires HasChild(s, w)
  {
    var c := s.slots[w];
    var g := s.agents[c.a];
    var made := Max(0, c.child.calls - c.before);
    var b := Applied(g.block, Some(c.child)).(quota := Max(0, c.orig - made));
    SetSlot(SetAgent(s, c.a, g.(block := b, made := g.made + made)), w, Free)
    .(quota := if c.reserve > made then Refund(s.quota, c.reserve - made) else s.quota,
      charges := s.charges + [Charge(Max(0, Min(made, c.reserve)), made, true)])
  }

  /** No report: the whole reservation stays charged, and the parent never learns how many calls were made. */
  function DoDie(s: State, w: nat): State
    requires HasChild(s, w)
  {
    var c := s.slots[w];
    var g := s.agents[c.a];
    var made := Max(0, c.child.calls - c.before);
    var b := Applied(g.block, None).(quota := Max(0, c.orig - c.reserve));
    SetSlot(SetAgent(s, c.a, g.(block := b, made := g.made + made)), w, Free)
    .(charges := s.charges + [Charge(c.reserve, made, false)])
  }

  function Newborn(kind: Kind, granted: int): Agent {
    Agent(Block(kind, Ready, granted, 0, 0), granted, 0, true)
  }

  function Killed(g: Agent): Agent {
    g.(block := With(g.block, Zombie))
  }

  function Apply(s: State, l: Label): State
    requires Enabled(s, l)
  {
    match l
    case Spawn(kind, granted) => s.(agents := s.agents + [Newborn(kind, granted)])
    case Pick(w, a) => SetSlot(SetAgent(s, a, s.agents[a].(queued := false)), w, Picked(a))
    case Check(w) =>
      var a := s.slots[w].a;
      SetSlot(s, w, if IsTerminal(s.agents[a].block.status) then Free else Cleared(a))
    case Repark(w, expired) => DoRepark(s, w, expired)
    case Reserve(w) => DoReserve(s, w)
    case ChildRaises(w) =>
      SetSlot(s, w, s.slots[w].(child := s.slots[w].child.(status := Error), over := true))
    case ChildStep(w, world) => SetSlot(s, w, DoChildStep(s.slots[w], world))
    case Report(w) => DoReport(s, w)
    case DieSilently(w) => DoDie(s, w)
    case Kill(a) => SetAgent(s, a, Killed(s.agents[a]))
    case Unqueue(a) => SetAgent(s, a, s.agents[a].(queued := false))
    case TopUp(n) => s.(quota := Topup(s.quota, n))
  }

  predicate Runs(s: State, ls: seq<Label>, t: State)
    decreases |ls|
  {
    if ls == [] then s == t else Enabled(s, ls[0]) && Runs(Apply(s, ls[0]), ls[1..], t)
  }

  predicate Initial(s: State) {
    && s.agents == [] && s.charges == [] && s.quota.total >= 0 && s.quota == Open(s.quota.total)
    && forall w :: 0 <= w < |s.slots| ==> s.slots[w].Free?
  }

  ghost predicate Reachable(s: State) {
    exists s0, ls :: Initial(s0) && Runs(s0, ls, s)
  }

  // ----- the ledger -----

  function Reserved(c: Slot): nat {
    if c.Live? then c.reserve else 0
  }

  function Made(c: Slot): nat {
    if c.Live? then Max(0, c.child.calls - c.before) else 0
  }

  function SumReserved(cs: seq<Slot>): nat {
    if cs == [] then 0 else Reserved(cs[0]) + SumReserved(cs[1..])
  }

  function SumMade(cs: seq<Slot>): nat {
    if cs == [] then 0 else Made(cs[0]) + SumMade(cs[1..])
  }

  function SumCharged(cs: seq<Charge>): nat {
    if cs == [] then 0 else cs[0].charged + SumCharged(cs[1..])
  }

  function SumCalls(cs: seq<Charge>): nat {
    if cs == [] then 0 else cs[0].calls + SumCalls(cs[1..])
  }

  function SumOfAgents(gs: seq<Agent>): nat {
    if gs == [] then 0 else gs[0].made + SumOfAgents(gs[1..])
  }

  lemma {:induction false} UpdateAgents(gs: seq<Agent>, a: nat, g: Agent)
    requires a < |gs|
    ensures SumOfAgents(gs[a := g]) == SumOfAgents(gs) - gs[a].made + g.made
    ensures gs[a].made <= SumOfAgents(gs)
  {
    if a == 0 {
      assert gs[a := g][1..] == gs[1..];
    } else {
      assert gs[a := g][1..] == gs[1..][a - 1 := g];
      UpdateAgents(gs[1..], a - 1, g);
    }
  }

  lemma {:induction false} AppendAgent(gs: seq<Agent>, g: Agent)
    ensures SumOfAgents(gs + [g]) == SumOfAgents(gs) + g.made
  {
    if gs == [] {
      assert gs + [g] == [g] && [g][1..] == [];
    } else {
      assert (gs + [g])[1..] == gs[1..] + [g];
      AppendAgent(gs[1..], g);
    }
  }

  lemma {:induction false} UpdateSlots(cs: seq<Slot>, w: nat, c: Slot)
    requires w < |cs|
    ensures SumReserved(cs[w := c]) == SumReserved(cs) - Reserved(cs[w]) + Reserved(c)
  {
    if w == 0 {
      assert cs[w := c][1..] == cs[1..];
    } else {
      assert cs[w := c][1..] == cs[1..][w - 1 := c];
      UpdateSlots(cs[1..], w - 1, c);
    }
  }

  lemma {:induction false} AppendCharge(cs: seq<Charge>, c: Charge)
    ensures SumCharged(cs + [c]) == SumCharged(cs) + c.charged
    ensures SumCalls(cs + [c]) == SumCalls(cs) + c.calls
  {
    if cs == [] {
      assert cs + [c] == [c] && [c][1..] == [];
    } else {
      assert (cs + [c])[1..] == cs[1..] + [c];
      AppendCharge(cs[1..], c);
    }
  }

  lemma {:induction false} AllFree(cs: seq<Slot>)
    requires forall w :: 0 <= w < |cs| ==> cs[w].Free?
    ensures SumReserved(cs) == 0
  {
    if cs != [] {
      AllFree(cs[1..]);
    }
  }

  lemma {:induction false} SlotWithinSum(cs: seq<Slot>, w: nat)
    requires w < |cs|
    ensures SumReserved(cs) >= Reserved(cs[w])
  {
    if w > 0 {
      SlotWithinSum(cs[1..], w - 1);
    }
  }

  // ----- the invariant -----

  /** An agent that no child has run yet. */
  predicate Fresh(g: Agent) {
    g.made == 0 && g.block.calls == 0 && g.block.step == 0 && g.block.quota == g.granted
  }

  /** An agent whose budgets let it make as many calls as a child makes steps. */
  predicate CanSpin(kind: Kind, granted: int) {
    kind.React? && kind.maxToolCalls >= CHILD_STEP_CAP && granted >= CHILD_STEP_CAP
  }

  /**
   The child never calls more often than its reservation allows, and as long as
   it has not been told to stop every one of its steps was a tool call.
   */
  predicate ChildOk(c: Slot, g: Agent)
    requires c.Live?
  {
    && c.before == 0 && c.orig == g.granted && g.made == 0 && g.block.calls == 0
    && c.child.kind == g.block.kind
    && c.child.quota + c.child.calls == c.reserve && c.child.quota >= 0
    && c.reserve <= Max(0, c.orig)
    && c.steps <= CHILD_STEP_CAP
    && (c.over ==> IsTerminal(c.child.status))
    && (!c.over ==> c.child.calls == c.steps && c.child.step == c.steps)
    && (!c.over && c.steps > 0 ==> c.child.kind.React? && c.steps <= c.child.kind.maxToolCalls)
    && (c.child.status.Zombie? ==> g.block.status.Zombie?)
  }

  predicate SlotOk(c: Slot, agents: seq<Agent>) {
    c.Free? ||
    (&& c.a < |agents| && !agents[c.a].queued
     && if c.Live? then ChildOk(c, agents[c.a]) else Fresh(agents[c.a]))
  }

  predicate AgentOk(g: Agent) {
    && g.block.calls <= g.made <= Max(0, g.granted)
    && (g.queued ==> Fresh(g))
  }

  predicate ChargeOk(c: Charge) {
    c.calls <= c.charged && (c.reported ==> c.calls == c.charged)
  }

  ghost predicate SlotsOk(slots: seq<Slot>, agents: seq<Agent>) {
    forall w :: 0 <= w < |slots| ==> SlotOk(slots[w], agents)
  }

  ghost predicate OneServer(slots: seq<Slot>) {
    forall v, w :: 0 <= v < w < |slots| && !slots[v].Free? && !slots[w].Free? ==> slots[v].a != slots[w].a
  }

  /** The only way to drop out of the pool unfinished is to be a spinner whose child used up its steps. */
  predicate Accounted(g: Agent, served: bool) {
    IsTerminal(g.block.status) || g.queued || served
    || (CanSpin(g.block.kind, g.granted) && g.made == CHILD_STEP_CAP)
  }

  ghost predicate AgentsOk(slots: seq<Slot>, agents: seq<Agent>) {
    forall a :: 0 <= a < |agents| ==> AgentOk(agents[a]) && Accounted(agents[a], Served(slots, a))
  }

  ghost predicate LedgerOk(s: State) {
    && (forall i :: 0 <= i < |s.charges| ==> ChargeOk(s.charges[i]))
    && s.quota.Used() == SumReserved(s.slots) + SumCharged(s.charges)
    && s.quota.remaining >= 0
    && SumOfAgents(s.agents) == SumCalls(s.charges)
  }

  ghost predicate Inv(s: State) {
    SlotsOk(s.slots, s.agents) && OneServer(s.slots) && AgentsOk(s.slots, s.agents) && LedgerOk(s)
  }

  /**
   Rewriting one slot and the agent it serves (before, after, or both) keeps the
   structural part of the invariant when the new pair is all right by itself.
   */
  lemma {:induction false} LocalChange(s: State, s': State, w: nat, a: Pid)
    requires Inv(s) && w < |s.slots| && a < |s.agents|
    requires |s'.slots| == |s.slots| && s'.slots == s.slots[w := s'.slots[w]]
    requires |s'.agents| == |s.agents| && s'.agents == s.agents[a := s'.agents[a]]
    requires Serves(s.slots[w], a) || (s.slots[w].Free? && s.agents[a].queued)
    requires s'.slots[w].Free? || s'.slots[w].a == a
    requires SlotOk(s'.slots[w], s'.agents) && AgentOk(s'.agents[a])
    requires Accounted(s'.agents[a], !s'.slots[w].Free?)
    ensures SlotsOk(s'.slots, s'.agents) && OneServer(s'.slots) && AgentsOk(s'.slots, s'.agents)
  {
    forall v | 0 <= v < |s.slots| && v != w
      ensures s'.slots[v] == s.slots[v] && !Serves(s.slots[v], a) && SlotOk(s'.slots[v], s'.agents)
    {
      assert SlotOk(s.slots[v], s.agents);
    }
    forall b | 0 <= b < |s.agents|
      ensures AgentOk(s'.agents[b]) && Accounted(s'.agents[b], Served(s'.slots, b))
    {
      if b != a {
        assert AgentOk(s.agents[b]) && Accounted(s.agents[b], Served(s.slots, b));
        if Served(s.slots, b) {
          var v :| 0 <= v < |s.slots| && Serves(s.slots[v], b);
          assert Serves(s'.slots[v], b);
        }
      } else if !s'.slots[w].Free? {
        assert Serves(s'.slots[w], b);
      }
    }
  }

  /** A step that moves no budget. */
  lemma {:induction false} LocalKeepsInv(s: State, s': State, w: nat, a: Pid)
    requires Inv(s) && w < |s.slots| && a < |s.agents|
    requires |s'.slots| == |s.slots| && s'.slots == s.slots[w := s'.slots[w]]
    requires |s'.agents| == |s.agents| && s'.agents == s.agents[a := s'.agents[a]]
    requires Serves(s.slots[w], a) || (s.slots[w].Free? && s.agents[a].queued)
    requires s'.slots[w].Free? || s'.slots[w].a == a
    requires SlotOk(s'.slots[w], s'.agents) && AgentOk(s'.agents[a])
    requires Accounted(s'.agents[a], !s'.slots[w].Free?)
    requires Reserved(s'.slots[w]) == Reserved(s.slots[w])
    requires s'.quota == s.quota && s'.charges == s.charges && s'.agents[a].made == s.agents[a].made
    ensures Inv(s')
  {
    LocalChange(s, s', w, a);
    UpdateAgents(s.agents, a, s'.agents[a]);
    UpdateSlots(s.slots, w, s'.slots[w]);
  }

  lemma {:induction false} ReserveKeepsInv(s: State, w: nat)
    requires Inv(s) && Enabled(s, Reserve(w))
    ensures Inv(DoReserve(s, w))
  {
    var s', a := DoReserve(s, w), s.slots[w].a;
    assert SlotOk(s.slots[w], s.agents) && AgentOk(s.agents[a]);
    LocalChange(s, s', w, a);
    UpdateAgents(s.agents, a, s'.agents[a]);
    UpdateSlots(s.slots, w, s'.slots[w]);
  }

  lemma {:induction false} ChildStepKeepsInv(s: State, w: nat, world: World)
    requires Inv(s) && Enabled(s, ChildStep(w, world))
    ensures Inv(Apply(s, ChildStep(w, world)))
  {
    var s', c := Apply(s, ChildStep(w, world)), s.slots[w];
    assert SlotOk(c, s.agents) && AgentOk(s.agents[c.a]);
    EveryStepMeetsTheContract(c.child, world);
    assert ChildOk(DoChildStep(c, world), s.agents[c.a]);
    LocalKeepsInv(s, s', w, c.a);
  }

  /** Freeing a slot and settling its reservation at what the charge says. */
  lemma {:induction false} SettleKeepsInv(s: State, s': State, w: nat, g: Agent, c: Charge)
    requires Inv(s) && HasChild(s, w)
    requires s'.slots == s.slots[w := Free] && s'.agents == s.agents[s.slots[w].a := g]
    requires s'.charges == s.charges + [c] && ChargeOk(c) && c.charged <= s.slots[w].reserve
    requires s'.quota == s.quota.(remaining := s.quota.remaining + s.slots[w].reserve - c.charged)
    requires AgentOk(g) && Accounted(g, false) && g.made == s.agents[s.slots[w].a].made + c.calls
    ensures Inv(s')
  {
    UpdateAgents(s.agents, s.slots[w].a, g);
    LocalChange(s, s', w, s.slots[w].a);
    UpdateSlots(s.slots, w, Free);
    AppendCharge(s.charges, c);
  }

  lemma {:induction false} ReportKeepsInv(s: State, w: nat)
    requires Inv(s) && Enabled(s, Report(w))
    ensures Inv(DoReport(s, w))
  {
    var s', c := DoReport(s, w), s.slots[w];
    assert SlotOk(c, s.agents) && AgentOk(s.agents[c.a]);
    SlotWithinSum(s.slots, w);
    SettleKeepsInv(s, s', w, s'.agents[c.a], Charge(c.child.calls, c.child.calls, true));
  }

  lemma {:induction false} DieKeepsInv(s: State, w: nat)
    requires Inv(s) && Enabled(s, DieSilently(w))
    ensures Inv(DoDie(s, w))
  {
    var s', c := DoDie(s, w), s.slots[w];
    assert SlotOk(c, s.agents) && AgentOk(s.agents[c.a]);
    SettleKeepsInv(s, s', w, s'.agents[c.a], Charge(c.reserve, c.child.calls, false));
  }

  /** A kill marks an agent wherever it is; a finished agent may be taken off the queue. */
  lemma {:induction false} KillKeepsInv(s: State, a: Pid, g: Agent)
    requires Inv(s) && a < |s.agents|
    requires g == Killed(s.agents[a]) || (IsTerminal(s.agents[a].block.status) && g == s.agents[a].(queued := false))
    ensures Inv(SetAgent(s, a, g))
  {
    var s' := SetAgent(s, a, g);
    UpdateAgents(s.agents, a, g);
    forall w | 0 <= w < |s.slots|
      ensures SlotOk(s'.slots[w], s'.agents)
    {
      assert SlotOk(s.slots[w], s.agents);
    }
    forall b | 0 <= b < |s.agents|
      ensures AgentOk(s'.agents[b]) && Accounted(s'.agents[b], Served(s'.slots, b))
    {
      assert AgentOk(s.agents[b]) && Accounted(s.agents[b], Served(s.slots, b));
    }
  }

  lemma {:induction false} SpawnKeepsInv(s: State, kind: Kind, granted: int)
    requires Inv(s)
    ensures Inv(Apply(s, Spawn(kind, granted)))
  {
    var s' := Apply(s, Spawn(kind, granted));
    AppendAgent(s.agents, Newborn(kind, granted));
    forall w | 0 <= w < |s.slots|
      ensures SlotOk(s'.slots[w], s'.agents)
    {
      assert SlotOk(s.slots[w], s.agents);
    }
    forall b | 0 <= b < |s'.agents|
      ensures AgentOk(s'.agents[b]) && Accounted(s'.agents[b], Served(s'.slots, b))
    {
      assert b < |s.agents| ==> AgentOk(s.agents[b]) && Accounted(s.agents[b], Served(s.slots, b));
    }
  }

  lemma {:induction false} StepKeepsInv(s: State, l: Label)
    requires Inv(s) && Enabled(s, l)
    ensures Inv(Apply(s, l))
  {
    var s' := Apply(s, l);
    match l
    case Spawn(kind, granted) => SpawnKeepsInv(s, kind, granted);
    case Pick(w, a) =>
      assert AgentOk(s.agents[a]);
      LocalKeepsInv(s, s', w, a);
    case Check(w) =>
      assert SlotOk(s.slots[w], s.agents) && AgentOk(s.agents[s.slots[w].a]);
      LocalKeepsInv(s, s', w, s.slots[w].a);
    case Repark(w, _) =>
      assert SlotOk(s.slots[w], s.agents) && AgentOk(s.agents[s.slots[w].a]);
      LocalKeepsInv(s, s', w, s.slots[w].a);
    case Reserve(w) => ReserveKeepsInv(s, w);
    case ChildRaises(w) =>
      assert SlotOk(s.slots[w], s.agents) && AgentOk(s.agents[s.slots[w].a]);
      LocalKeepsInv(s, s', w, s.slots[w].a);
    case ChildStep(w, world) => ChildStepKeepsInv(s, w, world);
    case Report(w) => ReportKeepsInv(s, w);
    case DieSilently(w) => DieKeepsInv(s, w);
    case Kill(a) => KillKeepsInv(s, a, Killed(s.agents[a]));
    case Unqueue(a) => KillKeepsInv(s, a, s.agents[a].(queued := false));
    case TopUp(_) =>
  }

  lemma {:induction false} RunKeepsInv(s: State, ls: seq<Label>, t: State)
    requires Inv(s) && Runs(s, ls, t)
    ensures Inv(t)
    decreases |ls|
  {
    if ls != [] {
      StepKeepsInv(s, ls[0]);
      RunKeepsInv(Apply(s, ls[0]), ls[1..], t);
    }
  }

  lemma {:induction false} ReachableInv(s: State)
    requires Reachable(s)
    ensures Inv(s)
  {
    var s0, ls :| Initial(s0) && Runs(s0, ls, s);
    AllFree(s0.slots);
    RunKeepsInv(s0, ls, s);
  }

  // ----- the theorems -----

  lemma {:induction false} ChargesCoverCalls(cs: seq<Charge>)
    requires forall i :: 0 <= i < |cs| ==> ChargeOk(cs[i])
    ensures SumCalls(cs) <= SumCharged(cs)
    ensures (forall i :: 0 <= i < |cs| ==> cs[i].reported) ==> SumCalls(cs) == SumCharged(cs)
  {
    if cs != [] {
      ChargesCoverCalls(cs[1..]);
      if forall i :: 0 <= i < |cs| ==> cs[i].reported {
        assert forall i :: 0 <= i < |cs[1..]| ==> cs[1..][i].reported;
      }
    }
  }

  lemma {:induction false} ReservationsCoverCalls(cs: seq<Slot>, agents: seq<Agent>)
    requires SlotsOk(cs, agents)
    ensures SumMade(cs) <= SumReserved(cs)
  {
    if cs != [] {
      assert SlotOk(cs[0], agents);
      ReservationsCoverCalls(cs[1..], agents);
    }
  }

  /**
   The budget in use is exactly the live reservations plus the settled charges;
   it covers every call really made, settled or still running, and stays
   within the total. It is exact once every child has reported and none is live.
   */
  lemma {:induction false} NeverUnderCharges(s: State)
    requires Reachable(s)
    ensures s.quota.Used() == SumReserved(s.slots) + SumCharged(s.charges)
    ensures SumCalls(s.charges) == SumOfAgents(s.agents)
    ensures SumMade(s.slots) + SumCalls(s.charges) <= s.quota.Used() <= s.quota.total
    ensures (forall w :: 0 <= w < |s.slots| ==> s.slots[w].Free?)
         && (forall i :: 0 <= i < |s.charges| ==> s.charges[i].reported)
         ==> s.quota.Used() == SumCalls(s.charges)
    ensures forall c :: c in s.charges ==> c.calls <= c.charged && (c.reported ==> c.calls == c.charged)
  {
    ReachableInv(s);
    ChargesCoverCalls(s.charges);
    ReservationsCoverCalls(s.slots, s.agents);
    if forall w :: 0 <= w < |s.slots| ==> s.slots[w].Free? {
      AllFree(s.slots);
    }
    assert forall c :: c in s.charges ==> ChargeOk(c);
  }

  /** The refund after a report is handed back in full. */
  lemma {:induction false} RefundIsNeverTruncated(s: State, w: nat)
    requires Reachable(s) && Enabled(s, Report(w))
    ensures DoReport(s, w).quota.Used() == s.quota.Used() - (s.slots[w].reserve - Made(s.slots[w]))
  {
    ReachableInv(s);
    assert SlotOk(s.slots[w], s.agents);
    SlotWithinSum(s.slots, w);
  }

  /** No agent makes more calls than it was granted, and its child never more than its reservation. */
  lemma {:induction false} CallsStayWithinGrant(s: State, a: Pid, w: nat)
    requires Reachable(s) && a < |s.agents|
    ensures s.agents[a].made <= Max(0, s.agents[a].granted)
    ensures w < |s.slots| && s.slots[w].Live? && s.slots[w].a == a ==>
              && Made(s.slots[w]) <= s.slots[w].reserve
              && s.agents[a].made + Made(s.slots[w]) <= Max(0, s.agents[a].granted)
  {
    ReachableInv(s);
    assert AgentOk(s.agents[a]);
    assert w < |s.slots| ==> SlotOk(s.slots[w], s.agents);
  }

  predicate Drained(s: State) {
    && (forall w :: 0 <= w < |s.slots| ==> s.slots[w].Free?)
    && (forall a :: 0 <= a < |s.agents| ==> !s.agents[a].queued)
  }

  /** No step of this pool, whoever takes it, changes the status of a finished agent. */
  lemma {:induction false} FinishedForever(s: State, ls: seq<Label>, t: State, a: Pid)
    requires Runs(s, ls, t) && a < |s.agents| && IsTerminal(s.agents[a].block.status)
    ensures a < |t.agents| && t.agents[a].block.status == s.agents[a].block.status
    decreases |ls|
  {
    if ls != [] {
      FinishedForever(Apply(s, ls[0]), ls[1..], t, a);
    }
  }

  /** At drain, whoever is unfinished is a spinner that made exactly 64 calls. */
  lemma {:induction false} DrainedMeansFinishedOrSpun(s: State, a: Pid)
    requires Reachable(s) && Drained(s) && a < |s.agents|
    ensures IsTerminal(s.agents[a].block.status)
         || (CanSpin(s.agents[a].block.kind, s.agents[a].granted) && s.agents[a].made == CHILD_STEP_CAP)
  {
    ReachableInv(s);
    assert Accounted(s.agents[a], Served(s.slots, a));
  }

  // ----- what each ending leaves -----

  /** Everything of an agent's block but its status, calls and quota. */
  predicate SameAgent(b: Block, b': Block) {
    b'.kind == b.kind && b'.step == b.step
  }

  /** A silent child leaves ERROR, unless the agent was finished; its calls are never learnt of. */
  lemma {:induction false} SilentChildLeavesError(s: State, w: nat)
    requires Enabled(s, DieSilently(w))
    ensures var a := s.slots[w].a;
      var b, b' := s.agents[a].block, Apply(s, DieSilently(w)).agents[a].block;
      && SameAgent(b, b') && b'.calls == b.calls
      && b'.status == (if IsTerminal(b.status) then b.status else Error)
      && b'.quota == Max(0, s.slots[w].orig - s.slots[w].reserve)
  {
  }

  /** A report leaves the child's status and call count, unless the agent was finished; its quota pays for the calls. */
  lemma {:induction false} ReportLeavesTheChildsResult(s: State, w: nat)
    requires Reachable(s) && Enabled(s, Report(w))
    ensures var a, child := s.slots[w].a, s.slots[w].child;
      var b, b' := s.agents[a].block, Apply(s, Report(w)).agents[a].block;
      && SameAgent(b, b') && b'.calls == child.calls
      && b'.status == (if IsTerminal(b.status) then b.status else child.status)
      && b'.quota == Max(0, s.slots[w].orig - child.calls)
  {
    ReachableInv(s);
    assert SlotOk(s.slots[w], s.agents);
  }

  /** An unfinished agent gets a child exactly when its quota or the budget allows; else it is READY in the queue. */
  lemma {:induction false} ReserveForksExactlyWhen(s: State, w: nat)
    requires Reachable(s) && Enabled(s, Reserve(w))
    ensures var s', a := Apply(s, Reserve(w)), s.slots[w].a;
      var quota := s.agents[a].block.quota;
      && (s'.slots[w].Live? <==> quota <= 0 || s.quota.remaining > 0)
      && (s'.slots[w].Live? ==> s'.slots[w].reserve == Max(0, Min(quota, s.quota.remaining)))
      && (!s'.slots[w].Live? ==>
            && s'.quota == s.quota
            && (!IsTerminal(s.agents[a].block.status) ==> s'.agents[a].queued && s'.agents[a].block.status == Ready))
  {
    ReachableInv(s);
  }

  /** An agent without input is requeued, or fails once its deadline has passed. */
  lemma {:induction false} ReparkLeaves(s: State, w: nat, expired: bool)
    requires Enabled(s, Repark(w, expired)) && !IsTerminal(s.agents[s.slots[w].a].block.status)
    ensures var g := Apply(s, Repark(w, expired)).agents[s.slots[w].a];
      if expired then g.block.status == Error else g.queued && g.block.status == Ready
  {
  }

  // ----- and a spinner really can be left behind -----

  lemma {:induction false} RunsCompose(s: State, ls: seq<Label>, t: State, ms: seq<Label>, u: State)
    requires Runs(s, ls, t) && Runs(t, ms, u)
    ensures Runs(s, ls + ms, u)
    decreases |ls|
  {
    if ls == [] {
      assert ls + ms == ms;
    } else {
      assert (ls + ms)[1..] == ls[1..] + ms;
      RunsCompose(Apply(s, ls[0]), ls[1..], t, ms, u);
    }
  }

  function ToolWorld(): World {
    World(true, None, Tool, false, true, false)
  }

  function Spin(n: nat): seq<Label> {
    seq(n, _ => ChildStep(0, ToolWorld()))
  }

  /** One worker, one agent of the given kind whose child has taken `n` tool steps. */
  function Spinning(kind: Kind, granted: int, total: nat, n: nat): State
    requires CanSpin(kind, granted)
  {
    var r := Min(granted, total);
    State([Agent(Block(kind, Running, r, 0, 0), granted, 0, false)],
          [Live(0, granted, Max(0, r), 0, Block(kind, Running, r - n, n, n), n, false)],
          Account(total, total - r), [])
  }

  lemma {:induction false} Spins(kind: Kind, granted: int, total: nat, n: nat, m: nat)
    requires CanSpin(kind, granted) && total >= CHILD_STEP_CAP && n + m <= CHILD_STEP_CAP
    ensures Runs(Spinning(kind, granted, total, n), Spin(m), Spinning(kind, granted, total, n + m))
    decreases m
  {
    if m > 0 {
      var s, t := Spinning(kind, granted, total, n), Spinning(kind, granted, total, n + 1);
      assert Apply(s, ChildStep(0, ToolWorld())).slots == t.slots;
      assert Apply(s, ChildStep(0, ToolWorld())) == t;
      assert Spin(m)[1..] == Spin(m - 1);
      Spins(kind, granted, total, n + 1, m - 1);
    }
  }

  lemma {:induction false} Launches(kind: Kind, granted: int, total: nat)
    requires CanSpin(kind, granted) && total >= CHILD_STEP_CAP
    ensures Runs(State([], [Free], Open(total), []), [Spawn(kind, granted), Pick(0, 0), Check(0), Reserve(0)],
                 Spinning(kind, granted, total, 0))
  {
    var ls := [Spawn(kind, granted), Pick(0, 0), Check(0), Reserve(0)];
    var s0 := State([], [Free], Open(total), []);
    var s1 := Apply(s0, ls[0]);
    var s2 := Apply(s1, Pick(0, 0));
    var s3 := Apply(s2, Check(0));
    var s4 := Apply(s3, Reserve(0));
    assert s4 == Spinning(kind, granted, total, 0);
    assert ls[1..] == [Pick(0, 0), Check(0), Reserve(0)];
    assert ls[1..][1..] == [Check(0), Reserve(0)];
    assert ls[1..][1..][1..] == [Reserve(0)];
    assert Runs(s3, [Reserve(0)], s4);
    assert Runs(s2, [Check(0), Reserve(0)], s4);
    assert Runs(s1, [Pick(0, 0), Check(0), Reserve(0)], s4);
  }

  predicate NoTopUp(ls: seq<Label>) {
    forall i :: 0 <= i < |ls| ==> !ls[i].TopUp?
  }

  lemma {:induction false} TotalIsFixed(s: State, ls: seq<Label>, t: State)
    requires Runs(s, ls, t) && NoTopUp(ls)
    ensures t.quota.total == s.quota.total
    decreases |ls|
  {
    if ls != [] {
      assert !ls[0].TopUp?;
      TotalIsFixed(Apply(s, ls[0]), ls[1..], t);
    }
  }

  predicate Unfinished(g: Agent, kind: Kind, granted: int) {
    g.block.kind == kind && g.granted == granted && !IsTerminal(g.block.status)
  }

  /** Some run without top-ups from a budget of `total` drains and leaves such an agent unfinished. */
  ghost predicate CanBeLeftBehind(kind: Kind, granted: int, total: nat) {
    exists s, ls, t, a: nat ::
      && Initial(s) && s.quota.total == total && Runs(s, ls, t) && NoTopUp(ls)
      && Drained(t) && a < |t.agents| && Unfinished(t.agents[a], kind, granted)
  }

  function Abandoned(kind: Kind, granted: int, total: nat): State
    requires CanSpin(kind, granted) && total >= CHILD_STEP_CAP
  {
    Apply(Spinning(kind, granted, total, CHILD_STEP_CAP), Report(0))
  }

  lemma {:induction false} Abandons(kind: Kind, granted: int, total: nat)
    requires CanSpin(kind, granted) && total >= CHILD_STEP_CAP
    ensures var t := Abandoned(kind, granted, total);
      && Runs(Spinning(kind, granted, total, CHILD_STEP_CAP), [Report(0)], t)
      && Drained(t) && |t.agents| == 1 && Unfinished(t.agents[0], kind, granted)
  {
    assert [Report(0)][1..] == [];
  }

  lemma {:induction false} LeavesBehind(kind: Kind, granted: int, total: nat, cap: nat)
    requires CanSpin(kind, granted) && total >= CHILD_STEP_CAP && cap == CHILD_STEP_CAP
    ensures CanBeLeftBehind(kind, granted, total)
  {
    var s0 := State([], [Free], Open(total), []);
    var launch := [Spawn(kind, granted), Pick(0, 0), Check(0), Reserve(0)];
    Launches(kind, granted, total);
    Spins(kind, granted, total, 0, cap);
    RunsCompose(s0, launch, Spinning(kind, granted, total, 0), Spin(cap), Spinning(kind, granted, total, cap));
    Abandons(kind, granted, total);
    RunsCompose(s0, launch + Spin(cap), Spinning(kind, granted, total, cap),
                [Report(0)], Abandoned(kind, granted, total));
    assert NoTopUp(launch + Spin(cap) + [Report(0)]);
  }

  /**
   "Drained means finished" fails in this pool exactly for the agents that may
   make as many tool calls as a child may take steps, under a budget that pays for them.
   */
  lemma {:induction false} LeftBehindExactlyWhen(kind: Kind, granted: int, total: nat)
    ensures CHILD_STEP_CAP == 64
    ensures CanBeLeftBehind(kind, granted, total) <==>
            kind.React? && kind.maxToolCalls >= CHILD_STEP_CAP && granted >= CHILD_STEP_CAP && total >= CHILD_STEP_CAP
  {
    if CanSpin(kind, granted) && total >= CHILD_STEP_CAP {
      LeavesBehind(kind, granted, total, CHILD_STEP_CAP);
    }
    if CanBeLeftBehind(kind, granted, total) {
      var s, ls, t, a: nat :|
        && Initial(s) && s.quota.total == total && Runs(s, ls, t) && NoTopUp(ls)
        && Drained(t) && a < |t.agents| && Unfinished(t.agents[a], kind, granted);
      assert Reachable(t);
      DrainedMeansFinishedOrSpun(t, a);
      TotalIsFixed(s, ls, t);
      NeverUnderCharges(t);
      UpdateAgents(t.agents, a, t.agents[a]);
    }
  }
}
