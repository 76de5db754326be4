/**
 The inductive invariant of the dispatch protocol, and the frame lemmas that
 every step's preservation proof goes through.
 */
module DispatchInvariant {
  import opened Basics
  import opened Agents
  import opened Steps
  import opened Quotas
  import opened Dispatch

  // ----- what a worker holds -----

  /** Between a pop and its `task_done`. */
  function Busy(p: Worker): nat {
    if p.Idle? then 0 else 1
  }

  /** Quota units that a worker holds and that no counter accounts for yet. */
  function Units(p: Worker): nat {
    match p
    case Woken(_, _, got) => if got then 1 else 0
    case Returning(_) => 1
    case Entering(_, _, _) => 1
    case Marking(_, _, _) => 1
    case Assembling(_, _, _) => 1
    case Summarising(_, _, _) => 2
    case Calling(_, _, _) => 1
    case Closing(_, _, _, charged, _) => if charged then 0 else 1
    case Settling(_, _, _, charged, _) => if charged then 0 else 1
    case _ => 0
  }

  function BusyCount(ws: seq<Worker>): nat {
    if ws == [] then 0 else Busy(ws[0]) + BusyCount(ws[1..])
  }

  function UnitsHeld(ws: seq<Worker>): nat {
    if ws == [] then 0 else Units(ws[0]) + UnitsHeld(ws[1..])
  }

  function CallsMade(gs: seq<Agent>): nat {
    if gs == [] then 0 else gs[0].block.calls + CallsMade(gs[1..])
  }

  lemma {:induction false} UpdateWorkers(ws: seq<Worker>, w: nat, p: Worker)
    requires w < |ws|
    ensures BusyCount(ws[w := p]) == BusyCount(ws) - Busy(ws[w]) + Busy(p)
    ensures UnitsHeld(ws[w := p]) == UnitsHeld(ws) - Units(ws[w]) + Units(p)
  {
    if w == 0 {
      assert ws[w := p][1..] == ws[1..];
    } else {
      assert ws[w := p][1..] == ws[1..][w - 1 := p];
      UpdateWorkers(ws[1..], w - 1, p);
    }
  }

  lemma {:induction false} UpdateCalls(gs: seq<Agent>, a: Pid, g: Agent)
    requires a < |gs|
    ensures CallsMade(gs[a := g]) == CallsMade(gs) - gs[a].block.calls + g.block.calls
  {
    if a == 0 {
      assert gs[a := g][1..] == gs[1..];
    } else {
      assert gs[a := g][1..] == gs[1..][a - 1 := g];
      UpdateCalls(gs[1..], a - 1, g);
    }
  }

  lemma {:induction false} AppendCalls(gs: seq<Agent>, g: Agent)
    ensures CallsMade(gs + [g]) == CallsMade(gs) + g.block.calls
  {
    if gs != [] {
      assert (gs + [g])[1..] == gs[1..] + [g];
      AppendCalls(gs[1..], g);
    } else {
      assert gs + [g] == [g] && [g][1..] == [];
    }
  }

  lemma {:induction false} BusyAtLeast(ws: seq<Worker>, w: nat)
    requires w < |ws|
    ensures BusyCount(ws) >= Busy(ws[w]) && UnitsHeld(ws) >= Units(ws[w])
  {
    if w > 0 {
      BusyAtLeast(ws[1..], w - 1);
    }
  }

  // ----- the invariant, piece by piece -----

  /** What holds of every agent at every moment. */
  predicate AgentOk(g: Agent) {
    && g.block.quota + g.block.calls == g.granted
    && (g.block.quota >= 0 || g.block.calls == 0)
    && g.block.calls <= Limit(g.block.kind)
    && g.entries <= g.block.calls + 1
    && (!g.block.kind.React? ==> g.entries <= 1)
  }

  /** Not inside a step: no call is ahead of the agent's own count, and every step run so far made a call. */
  predicate Quiet(g: Agent) {
    g.block.calls == Progress(g.block) && g.entries <= g.block.calls
  }

  /** Inside a step, past its checks, before its call. */
  predicate MayCall(g: Agent, before: nat) {
    && before == g.block.calls == Progress(g.block) < Limit(g.block.kind)
    && g.block.quota > 0
  }

  /** What a worker knows about the agent it owns. */
  predicate WorkerOk(stop: bool, g: Agent, p: Worker) {
    match p
    case Looping(_, left, keep) => Quiet(g) && (keep || left >= 1)
    case Entering(_, _, before) => Quiet(g) && before == g.block.calls
    case Marking(_, _, before) => MayCall(g, before)
    case Assembling(_, _, before) => MayCall(g, before)
    case Summarising(_, _, before) => MayCall(g, before)
    case Calling(_, _, before) => MayCall(g, before)
    case Charged(_, _, before) =>
      g.block.calls == before + 1 == Progress(g.block) + 1 && g.entries <= g.block.calls
    case Closing(_, _, before, charged, to) =>
      g.block.calls == before + (if charged then 1 else 0) && IsTerminal(to)
    case Settling(_, _, before, charged, keep) =>
      && g.block.calls == before + (if charged then 1 else 0)
      && (if keep then charged && Quiet(g) else IsTerminal(g.block.status))
    case Checking(_, _, keep) => if keep then Quiet(g) else IsTerminal(g.block.status)
    case Piping(_, keep) => (!keep && IsTerminal(g.block.status)) || (Quiet(g) && (keep || stop))
    case Sending(_, keep) => g.block.status.Done? && (keep ==> Quiet(g))
    case Yielding(_, keep) => (!keep && IsTerminal(g.block.status)) || (Quiet(g) && (keep || stop))
    case Idle => true
    case Finishing => true
    case _ => Quiet(g)
  }

  /** Queue slots, spawners and workers hold pairwise different agents, all among the n that exist. */
  predicate Owned(n: nat, spawning: set<Pid>, queue: seq<Pid>, ws: seq<Worker>) {
    && Distinct(queue)
    && (forall a :: a in queue ==> a < n && a !in spawning)
    && (forall a :: a in spawning ==> a < n)
    && (forall w :: 0 <= w < |ws| ==> Owner(ws[w]) < n)
    && (forall w, a :: 0 <= w < |ws| && Owner(ws[w]) == a ==> a !in queue && a !in spawning)
    && (forall v, w :: 0 <= v < w < |ws| && Owner(ws[v]) == Owner(ws[w]) ==> Owner(ws[v]) == -1)
  }

  predicate Held(ws: seq<Worker>, a: Pid) {
    exists w :: 0 <= w < |ws| && Owner(ws[w]) == a
  }

  /** Finished, with a spawner, in the queue, with a worker, or dropped between steps at shutdown. */
  predicate Placed(g: Agent, a: Pid, spawning: set<Pid>, queue: seq<Pid>, ws: seq<Worker>, stop: bool) {
    IsTerminal(g.block.status) || a in spawning || a in queue || Held(ws, a) || (stop && Quiet(g))
  }

  predicate NoneLost(gs: seq<Agent>, spawning: set<Pid>, queue: seq<Pid>, ws: seq<Worker>, stop: bool) {
    forall a: Pid :: a < |gs| ==> Placed(gs[a], a, spawning, queue, ws, stop)
  }

  predicate AgentsOk(gs: seq<Agent>, spawning: set<Pid>) {
    forall a: Pid :: a < |gs| ==> AgentOk(gs[a]) && (gs[a].block.status.New? ==> a in spawning)
  }

  predicate WaitersQuiet(gs: seq<Agent>, spawning: set<Pid>, queue: seq<Pid>) {
    forall a: Pid :: a < |gs| && (a in spawning || a in queue) ==> Quiet(gs[a])
  }

  predicate PipedDone(gs: seq<Agent>, piped: set<Pid>) {
    forall a: Pid :: a in piped ==> a < |gs| && gs[a].block.status.Done?
  }

  predicate WorkersOk(stop: bool, gs: seq<Agent>, ws: seq<Worker>) {
    forall w :: 0 <= w < |ws| && 0 <= Owner(ws[w]) < |gs| ==> WorkerOk(stop, gs[Owner(ws[w])], ws[w])
  }

  predicate Balanced(inFlight: int, acc: Account, gs: seq<Agent>, summaries: nat, ws: seq<Worker>) {
    && inFlight == BusyCount(ws)
    && acc.Used() == CallsMade(gs) + summaries + UnitsHeld(ws)
  }

  predicate Inv(s: State) {
    && Owned(|s.agents|, s.spawning, s.queue, s.workers)
    && NoneLost(s.agents, s.spawning, s.queue, s.workers, s.stop)
    && AgentsOk(s.agents, s.spawning)
    && WaitersQuiet(s.agents, s.spawning, s.queue)
    && PipedDone(s.agents, s.piped)
    && WorkersOk(s.stop, s.agents, s.workers)
    && Balanced(s.inFlight, s.quota, s.agents, s.summaries, s.workers)
  }

  lemma {:induction false} InitialInv(s: State)
    requires Initial(s)
    ensures Inv(s)
  {
    AllIdle(s.workers);
  }

  lemma {:induction false} AllIdle(ws: seq<Worker>)
    requires forall w :: 0 <= w < |ws| ==> ws[w].Idle?
    ensures BusyCount(ws) == 0 && UnitsHeld(ws) == 0
  {
    if ws != [] {
      AllIdle(ws[1..]);
    }
  }

  // ----- frame lemmas -----

  /** A change to one agent's record that every other party can live with. */
  predicate Allowed(g: Agent, g': Agent) {
    && g'.block.kind == g.block.kind
    && g'.granted == g.granted
    && (IsTerminal(g.block.status) ==> g'.block.status == g.block.status)
    && (g'.block.status.New? ==> g.block.status.New?)
  }

  /** Same owners as before: whoever held an agent still does. */
  predicate SameOwners(ws: seq<Worker>, ws': seq<Worker>) {
    |ws| == |ws'| && forall v :: 0 <= v < |ws| ==> Owner(ws[v]) == Owner(ws'[v])
  }

  lemma {:induction false} StillHeld(ws: seq<Worker>, ws': seq<Worker>, a: Pid)
    requires SameOwners(ws, ws') && Held(ws, a)
    ensures Held(ws', a)
  {
    var v :| 0 <= v < |ws| && Owner(ws[v]) == a;
    assert Owner(ws'[v]) == a;
  }

  lemma {:induction false} SameOwnersKeepOwned(
      n: nat, spawning: set<Pid>, queue: seq<Pid>, ws: seq<Worker>, ws': seq<Worker>)
    requires Owned(n, spawning, queue, ws) && SameOwners(ws, ws')
    ensures Owned(n, spawning, queue, ws')
  {
  }

  /** One agent's record changes, and some workers move on with the agents they have. */
  lemma {:induction false} RecordChange(s: State, a: Pid, g': Agent, ws': seq<Worker>)
    requires Inv(s) && a < |s.agents| && Allowed(s.agents[a], g') && AgentOk(g')
    requires a in s.spawning || a in s.queue ==> Quiet(g')
    requires IsTerminal(g'.block.status) || a in s.spawning || Held(s.workers, a)
    requires SameOwners(s.workers, ws')
    ensures var gs' := s.agents[a := g'];
      && NoneLost(gs', s.spawning, s.queue, ws', s.stop)
      && AgentsOk(gs', s.spawning) && WaitersQuiet(gs', s.spawning, s.queue) && PipedDone(gs', s.piped)
  {
    var gs' := s.agents[a := g'];
    forall b: Pid | b < |gs'|
      ensures Placed(gs'[b], b, s.spawning, s.queue, ws', s.stop)
    {
      assert Placed(s.agents[b], b, s.spawning, s.queue, s.workers, s.stop);
      if Held(s.workers, b) {
        StillHeld(s.workers, ws', b);
      }
    }
  }

  /**
   Worker w moves to p' keeping its agent, changes the agent's record to g', and
   moves quota units. Only local conditions remain to be checked.
   */
  function Local(s: State, w: nat, p': Worker, g': Agent, acc: Account, summaries: nat): State
    requires Holds(s, w)
  {
    At(WithAgent(s, Owner(s.workers[w]), g'), w, p').(quota := acc, summaries := summaries)
  }

  lemma {:induction false} LocalKeepsInv(s: State, w: nat, p': Worker, g': Agent, acc: Account, summaries: nat)
    requires Inv(s) && Holds(s, w)
    requires Owner(p') == Owner(s.workers[w])
    requires var g := s.agents[Owner(s.workers[w])];
      && Allowed(g, g') && AgentOk(g') && WorkerOk(s.stop, g', p')
      && acc.Used() - s.quota.Used()
         == g'.block.calls - g.block.calls + summaries - s.summaries + Units(p') - Units(s.workers[w])
    ensures Inv(Local(s, w, p', g', acc, summaries))
  {
    var a := Owner(s.workers[w]);
    var ws', gs' := s.workers[w := p'], s.agents[a := g'];
    UpdateWorkers(s.workers, w, p');
    UpdateCalls(s.agents, a, g');
    SameOwnersKeepOwned(|s.agents|, s.spawning, s.queue, s.workers, ws');
    RecordChange(s, a, g', ws');
    forall v | 0 <= v < |ws'| && 0 <= Owner(ws'[v]) < |gs'|
      ensures WorkerOk(s.stop, gs'[Owner(ws'[v])], ws'[v])
    {
      if v != w {
        assert Owner(s.workers[v]) != a;
        assert WorkerOk(s.stop, s.agents[Owner(s.workers[v])], s.workers[v]);
      }
    }
  }
}
