/**
 What the thread pool guarantees in every reachable state and over every run,
 for any number of workers, any scheduler and any interleaving.
 */
module DispatchTheorems {
  import opened Basics
  import opened Agents
  import opened Steps
  import opened Quotas
  import opened Dispatch
  import opened DispatchInvariant
  import opened DispatchProofs

  // ----- one owner per agent, exact in-flight accounting -----

  function OwnersOf(ws: seq<Worker>, a: Pid): nat {
    if ws == [] then 0 else (if Owner(ws[0]) == a then 1 else 0) + OwnersOf(ws[1..], a)
  }

  lemma {:induction false} DistinctCount(q: seq<Pid>, a: Pid)
    requires Distinct(q)
    ensures multiset(q)[a] == if a in q then 1 else 0
  {
    if q != [] {
      assert q == [q[0]] + q[1..];
      DistinctCount(q[1..], a);
    }
  }

  lemma {:induction false} OwnersCount(ws: seq<Worker>, a: Pid)
    requires forall v, w :: 0 <= v < w < |ws| && Owner(ws[v]) == Owner(ws[w]) ==> Owner(ws[v]) == -1
    ensures OwnersOf(ws, a) <= 1
    ensures OwnersOf(ws, a) == 1 ==> Held(ws, a)
    ensures Held(ws, a) ==> OwnersOf(ws, a) == 1
  {
    if ws != [] {
      OwnersCount(ws[1..], a);
      if Held(ws[1..], a) {
        var w :| 0 <= w < |ws[1..]| && Owner(ws[1..][w]) == a;
        assert Owner(ws[w + 1]) == a;
      }
      if Held(ws, a) && Owner(ws[0]) != a {
        var w :| 0 <= w < |ws| && Owner(ws[w]) == a;
        assert Owner(ws[1..][w - 1]) == a;
      }
    }
  }

  /** An agent has at most one owner: a queue slot, a spawner, or a worker. */
  lemma {:induction false} SingleOwner(c: Config, s: State, a: Pid)
    requires Reachable(c, s)
    ensures multiset(s.queue)[a] + OwnersOf(s.workers, a) + (if a in s.spawning then 1 else 0) <= 1
  {
    ReachableInv(c, s);
    DistinctCount(s.queue, a);
    OwnersCount(s.workers, a);
  }

  /** No two workers are ever between pop and put or drop of the same agent. */
  lemma {:induction false} NoDoubleDispatch(c: Config, s: State, v: nat, w: nat)
    requires Reachable(c, s) && v < |s.workers| && w < |s.workers| && v != w
    requires Owner(s.workers[v]) >= 0
    ensures Owner(s.workers[v]) != Owner(s.workers[w])
  {
    ReachableInv(c, s);
  }

  /**
   The in-flight count is the number of workers between a pop and its
   `task_done`; so the guard in `task_done` never hides an underflow.
   */
  lemma {:induction false} InFlightIsExact(c: Config, s: State)
    requires Reachable(c, s)
    ensures s.inFlight == BusyCount(s.workers)
    ensures forall w :: 0 <= w < |s.workers| && s.workers[w].Finishing? ==> s.inFlight > 0
  {
    ReachableInv(c, s);
    forall w | 0 <= w < |s.workers| && s.workers[w].Finishing?
      ensures s.inFlight > 0
    {
      BusyAtLeast(s.workers, w);
    }
  }

  // ----- no agent is lost -----

  predicate IsDrained(s: State) {
    s.queue == [] && s.inFlight == 0
  }

  lemma {:induction false} NoneBusy(ws: seq<Worker>)
    requires BusyCount(ws) == 0
    ensures forall w :: 0 <= w < |ws| ==> ws[w].Idle?
    ensures UnitsHeld(ws) == 0
  {
    if ws != [] {
      NoneBusy(ws[1..]);
      assert forall w :: 1 <= w < |ws| ==> ws[w] == ws[1..][w - 1];
    }
  }

  lemma {:induction false} NoAgentIsLost(c: Config, s: State, a: Pid)
    requires Reachable(c, s) && !s.stop && a < |s.agents| && a !in s.spawning
    requires !IsTerminal(StatusOf(s, a))
    ensures a in s.queue || exists w :: 0 <= w < |s.workers| && Owner(s.workers[w]) == a
  {
    ReachableInv(c, s);
  }

  /** `is_drained()` is the real idle signal: every fully spawned agent is finished. */
  lemma {:induction false} DrainedMeansFinished(c: Config, s: State)
    requires Reachable(c, s) && !s.stop && IsDrained(s)
    ensures forall a: Pid :: a < |s.agents| && a !in s.spawning ==> IsTerminal(StatusOf(s, a))
  {
    ReachableInv(c, s);
    NoneBusy(s.workers);
  }

  // ----- what one step does to workers and agents -----

  /** Past the step's checks and before the counted call. */
  function MidCall(p: Worker): nat {
    if p.Marking? || p.Assembling? || p.Summarising? || p.Calling? then 1 else 0
  }

  function CallsIn(l: Label): nat {
    if l.By? && l.act.CallReturned? then 1 else 0
  }

  function EntriesIn(l: Label): nat {
    if l.By? && l.act.Enter? then 1 else 0
  }

  function SummariesIn(l: Label): nat {
    if l.By? && l.act.Summarised? then 1 else 0
  }

  function TopUpIn(l: Label): int {
    if l.Outside? && l.event.TopUp? then l.event.n else 0
  }

  /** The effect of a step on one agent's record. */
  predicate Effect(g: Agent, g': Agent) {
    && g'.block.kind == g.block.kind && g'.granted == g.granted
    && (IsTerminal(g.block.status) ==> g'.block.status == g.block.status)
    && (g'.block.status == g.block.status || Legal(g.block.status, g'.block.status))
  }

  /** A worker's step touches its own program counter and its own agent only. */
  predicate Touches(s: State, w: nat, s': State, l: Label) {
    && Holds(s, w) && |s'.agents| == |s.agents| && |s'.workers| == |s.workers|
    && s'.workers == s.workers[w := s'.workers[w]]
    && s'.summaries == s.summaries + SummariesIn(l) && s'.quota.total == s.quota.total && (s.stop ==> s'.stop)
    && var a := Owner(s.workers[w]);
    && s'.agents == s.agents[a := s'.agents[a]]
    && Effect(s.agents[a], s'.agents[a])
    && s'.agents[a].block.calls == s.agents[a].block.calls + CallsIn(l)
    && s'.agents[a].entries == s.agents[a].entries + EntriesIn(l)
    && (Owner(s'.workers[w]) == a || Owner(s'.workers[w]) == -1)
    && (IsTerminal(s.agents[a].block.status) ==> MidCall(s'.workers[w]) + CallsIn(l) <= MidCall(s.workers[w]))
  }

  /** What a worker knows of its agent is all that is needed here. */
  predicate KnowsAgent(s: State, w: nat) {
    Holds(s, w) && var g := s.agents[Owner(s.workers[w])]; WorkerOk(s.stop, g, s.workers[w]) && !g.block.status.New?
  }

  lemma {:induction false} AdmissionTouches(c: Config, s: State, w: nat, m: Act)
    requires KnowsAgent(s, w) && CanDo(s, s.workers[w], m)
    requires m.Inspect? || m.Receive? || m.Park? || m.Requeue?
    ensures Touches(s, w, Perform(c, s, w, m), By(w, m))
  {
    var a := Owner(s.workers[w]);
    assert s.agents[a := s.agents[a]] == s.agents;
  }

  lemma {:induction false} QuotaTouches(c: Config, s: State, w: nat, m: Act)
    requires KnowsAgent(s, w) && CanDo(s, s.workers[w], m)
    requires m.Loop? || m.Acquire? || m.Wake? || m.MarkBlocked? || m.Resume? || m.GiveBack?
    ensures Touches(s, w, Perform(c, s, w, m), By(w, m))
  {
    var a := Owner(s.workers[w]);
    assert s.agents[a := s.agents[a]] == s.agents;
  }

  lemma {:induction false} StepTouches(c: Config, s: State, w: nat, m: Act)
    requires KnowsAgent(s, w) && CanDo(s, s.workers[w], m)
    requires m.Enter? || m.Mark? || m.Summarise? || m.Summarised? || m.SummaryRaised? || m.ContextRaised?
          || m.Call? || m.CallReturned? || m.CallRaised?
    ensures Touches(s, w, Perform(c, s, w, m), By(w, m))
  {
    var a := Owner(s.workers[w]);
    assert s.agents[a := s.agents[a]] == s.agents;
  }

  lemma {:induction false} EndTouches(c: Config, s: State, w: nat, m: Act)
    requires KnowsAgent(s, w) && CanDo(s, s.workers[w], m)
    requires m.Conclude? || m.StepCrashed? || m.Close? || m.Settle?
    ensures Touches(s, w, Perform(c, s, w, m), By(w, m))
  {
    var a := Owner(s.workers[w]);
    assert s.agents[a := s.agents[a]] == s.agents;
  }

  lemma {:induction false} ExitTouches(c: Config, s: State, w: nat, m: Act)
    requires KnowsAgent(s, w) && CanDo(s, s.workers[w], m)
    requires m.Check? || m.Pipe? || m.Send? || m.Yield?
    ensures Touches(s, w, Perform(c, s, w, m), By(w, m))
  {
    var a := Owner(s.workers[w]);
    assert s.agents[a := s.agents[a]] == s.agents;
  }

  lemma {:induction false} PerformTouches(c: Config, s: State, w: nat, m: Act)
    requires Inv(s) && Holds(s, w) && CanDo(s, s.workers[w], m)
    ensures Touches(s, w, Perform(c, s, w, m), By(w, m))
  {
    Known(s, w);
    match m
    case Inspect => AdmissionTouches(c, s, w, m);
    case Receive(_) => AdmissionTouches(c, s, w, m);
    case Park(_) => AdmissionTouches(c, s, w, m);
    case Requeue => AdmissionTouches(c, s, w, m);
    case Loop => QuotaTouches(c, s, w, m);
    case Acquire => QuotaTouches(c, s, w, m);
    case Wake(_) => QuotaTouches(c, s, w, m);
    case MarkBlocked => QuotaTouches(c, s, w, m);
    case Resume => QuotaTouches(c, s, w, m);
    case GiveBack => QuotaTouches(c, s, w, m);
    case Enter(_) => StepTouches(c, s, w, m);
    case Mark => StepTouches(c, s, w, m);
    case Summarise => StepTouches(c, s, w, m);
    case Summarised => StepTouches(c, s, w, m);
    case SummaryRaised(_) => StepTouches(c, s, w, m);
    case ContextRaised(_) => StepTouches(c, s, w, m);
    case Call => StepTouches(c, s, w, m);
    case CallReturned => StepTouches(c, s, w, m);
    case CallRaised(_) => StepTouches(c, s, w, m);
    case Conclude(_, _) => EndTouches(c, s, w, m);
    case StepCrashed => EndTouches(c, s, w, m);
    case Close => EndTouches(c, s, w, m);
    case Settle => EndTouches(c, s, w, m);
    case Check => ExitTouches(c, s, w, m);
    case Pipe => ExitTouches(c, s, w, m);
    case Send => ExitTouches(c, s, w, m);
    case Yield => ExitTouches(c, s, w, m);
  }

  // ----- ledgers over whole runs -----

  function Entries(gs: seq<Agent>): nat {
    if gs == [] then 0 else gs[0].entries + Entries(gs[1..])
  }

  lemma {:induction false} UpdateEntries(gs: seq<Agent>, a: Pid, g: Agent)
    requires a < |gs|
    ensures Entries(gs[a := g]) == Entries(gs) - gs[a].entries + g.entries
  {
    if a == 0 {
      assert gs[a := g][1..] == gs[1..];
    } else {
      assert gs[a := g][1..] == gs[1..][a - 1 := g];
      UpdateEntries(gs[1..], a - 1, g);
    }
  }

  lemma {:induction false} AppendEntries(gs: seq<Agent>, g: Agent)
    ensures Entries(gs + [g]) == Entries(gs) + g.entries
  {
    if gs == [] {
      assert gs + [g] == [g] && [g][1..] == [];
    } else {
      assert (gs + [g])[1..] == gs[1..] + [g];
      AppendEntries(gs[1..], g);
    }
  }

  /** What a step adds to the ledgers is visible in its label. */
  lemma {:induction false} StepLedger(c: Config, s: State, l: Label)
    requires Inv(s) && Enabled(s, l)
    ensures var s' := Apply(c, s, l);
      && CallsMade(s'.agents) == CallsMade(s.agents) + CallsIn(l)
      && Entries(s'.agents) == Entries(s.agents) + EntriesIn(l)
      && s'.summaries == s.summaries + SummariesIn(l)
      && s'.quota.total == s.quota.total + TopUpIn(l)
  {
    var s' := Apply(c, s, l);
    match l
    case Outside(e) => EventLedger(s, e);
    case By(w, m) =>
      if !m.Pop? && !m.TaskDone? {
        PerformTouches(c, s, w, m);
        var a := Owner(s.workers[w]);
        UpdateCalls(s.agents, a, s'.agents[a]);
        UpdateEntries(s.agents, a, s'.agents[a]);
      }
  }

  lemma {:induction false} EventLedger(s: State, e: Event)
    requires EventEnabled(s, e)
    ensures var s' := ApplyEvent(s, e);
      && CallsMade(s'.agents) == CallsMade(s.agents) && Entries(s'.agents) == Entries(s.agents)
      && s'.summaries == s.summaries && s'.quota.total == s.quota.total + TopUpIn(Outside(e))
  {
    var s' := ApplyEvent(s, e);
    match e
    case Register(_, _, _, _) =>
      AppendCalls(s.agents, s'.agents[|s.agents|]);
      AppendEntries(s.agents, s'.agents[|s.agents|]);
    case Announce(a) => SameLedger(s.agents, a, s'.agents[a]);
    case Enqueue(a) => SameLedger(s.agents, a, Moved(s.agents[a], Ready));
    case Kill(a) => SameLedger(s.agents, a, s'.agents[a]);
    case _ =>
  }

  lemma {:induction false} SameLedger(gs: seq<Agent>, a: Pid, g: Agent)
    requires a < |gs| && g.block.calls == gs[a].block.calls && g.entries == gs[a].entries
    ensures CallsMade(gs[a := g]) == CallsMade(gs) && Entries(gs[a := g]) == Entries(gs)
  {
    UpdateCalls(gs, a, g);
    UpdateEntries(gs, a, g);
  }

  function CallsOver(ls: seq<Label>): nat {
    if ls == [] then 0 else CallsIn(ls[0]) + CallsOver(ls[1..])
  }

  function EntriesOver(ls: seq<Label>): nat {
    if ls == [] then 0 else EntriesIn(ls[0]) + EntriesOver(ls[1..])
  }

  function SummariesOver(ls: seq<Label>): nat {
    if ls == [] then 0 else SummariesIn(ls[0]) + SummariesOver(ls[1..])
  }

  function TopUpsOver(ls: seq<Label>): int {
    if ls == [] then 0 else TopUpIn(ls[0]) + TopUpsOver(ls[1..])
  }

  lemma {:induction false} RunLedger(c: Config, s: State, ls: seq<Label>, t: State)
    requires Inv(s) && Runs(c, s, ls, t)
    ensures CallsMade(t.agents) == CallsMade(s.agents) + CallsOver(ls)
    ensures Entries(t.agents) == Entries(s.agents) + EntriesOver(ls)
    ensures t.summaries == s.summaries + SummariesOver(ls)
    ensures t.quota.total == s.quota.total + TopUpsOver(ls)
    decreases |ls|
  {
    if ls != [] {
      StepKeepsInv(c, s, ls[0]);
      StepLedger(c, s, ls[0]);
      RunLedger(c, Apply(c, s, ls[0]), ls[1..], t);
    }
  }

  /**
   Quota conservation over a whole run, with topups, blocked waits, the stop
   race, crashes and summaries: what is in use is exactly the calls that
   returned, the summaries written, and the units workers still hold.
   */
  lemma {:induction false} QuotaIsConserved(c: Config, s: State, ls: seq<Label>, t: State)
    requires Initial(s) && Runs(c, s, ls, t)
    ensures t.quota.total == s.quota.total + TopUpsOver(ls)
    ensures t.quota.Used() == CallsOver(ls) + SummariesOver(ls) + UnitsHeld(t.workers)
    ensures IsDrained(t) ==> t.quota.Used() == CallsOver(ls) + SummariesOver(ls)
  {
    InitialInv(s);
    RunKeepsInv(c, s, ls, t);
    RunLedger(c, s, ls, t);
    if IsDrained(t) {
      NoneBusy(t.workers);
    }
  }

  /** Whenever a worker is about to refund, the cap at the total cuts nothing off. */
  lemma {:induction false} RefundNeverTruncates(c: Config, s: State, w: nat)
    requires Reachable(c, s) && w < |s.workers| && Units(s.workers[w]) > 0
    ensures Refund(s.quota, 1).Used() == s.quota.Used() - 1
  {
    ReachableInv(c, s);
    BusyAtLeast(s.workers, w);
  }

  // ----- termination -----

  function CallBound(g: Agent): nat {
    if g.granted < 0 then 0 else Min(g.granted, Limit(g.block.kind))
  }

  /** Steps an agent can take: one for single-shot kinds, its calls and one refusal for the others. */
  function StepsAllowed(g: Agent): nat {
    if g.block.kind.React? then CallBound(g) + 1 else 1
  }

  function StepBound(gs: seq<Agent>): nat {
    if gs == [] then 0 else StepsAllowed(gs[0]) + StepBound(gs[1..])
  }

  lemma {:induction false} EntriesWithinBound(gs: seq<Agent>)
    requires forall a :: 0 <= a < |gs| ==> AgentOk(gs[a])
    ensures Entries(gs) <= StepBound(gs)
  {
    if gs != [] {
      EntriesWithinBound(gs[1..]);
    }
  }

  /**
   Whatever the models reply: an agent makes at most min(granted quota,
   max_tool_calls) calls, pays for each from its own quota, and is stepped at
   most once more than it calls; a single-shot agent is stepped at most once.
   */
  lemma {:induction false} AgentBounds(c: Config, s: State, a: Pid)
    requires Reachable(c, s) && a < |s.agents|
    ensures var g := s.agents[a];
      && g.block.calls <= CallBound(g)
      && g.entries <= Min(g.block.calls + 1, StepsAllowed(g))
      && g.block.quota + g.block.calls == g.granted
  {
    ReachableInv(c, s);
  }

  /** A step without a call is an agent's last: once no worker holds the agent, it is finished. */
  lemma {:induction false} StepWithoutCallFinishes(c: Config, s: State, a: Pid)
    requires Reachable(c, s) && a < |s.agents| && OwnersOf(s.workers, a) == 0
    requires s.agents[a].entries > s.agents[a].block.calls
    ensures IsTerminal(StatusOf(s, a))
  {
    ReachableInv(c, s);
    OwnersCount(s.workers, a);
    assert Placed(s.agents[a], a, s.spawning, s.queue, s.workers, s.stop);
  }

  /**
   The termination bound: after its last allowed step (the only one of a
   single-shot agent), an agent that no worker holds any more is finished.
   */
  lemma {:induction false} LastStepFinishes(c: Config, s: State, a: Pid)
    requires Reachable(c, s) && a < |s.agents| && OwnersOf(s.workers, a) == 0
    requires s.agents[a].entries >= StepsAllowed(s.agents[a])
    ensures IsTerminal(StatusOf(s, a))
  {
    ReachableInv(c, s);
    OwnersCount(s.workers, a);
    assert Placed(s.agents[a], a, s.spawning, s.queue, s.workers, s.stop);
  }

  /** So the number of steps executed in any run is bounded by the agents spawned in it. */
  lemma {:induction false} ExecutedStepsAreBounded(c: Config, s: State, ls: seq<Label>, t: State)
    requires Initial(s) && Runs(c, s, ls, t)
    ensures EntriesOver(ls) <= StepBound(t.agents)
  {
    InitialInv(s);
    RunKeepsInv(c, s, ls, t);
    RunLedger(c, s, ls, t);
    EntriesWithinBound(t.agents);
  }

  // ----- kill safety -----

  function MidCallOf(ws: seq<Worker>, a: Pid): nat {
    if ws == [] then 0 else (if Owner(ws[0]) == a then MidCall(ws[0]) else 0) + MidCallOf(ws[1..], a)
  }

  lemma {:induction false} UpdateMidCall(ws: seq<Worker>, w: nat, p: Worker, a: Pid)
    requires w < |ws|
    ensures MidCallOf(ws[w := p], a)
         == MidCallOf(ws, a) - (if Owner(ws[w]) == a then MidCall(ws[w]) else 0)
                             + (if Owner(p) == a then MidCall(p) else 0)
  {
    if w == 0 {
      assert ws[w := p][1..] == ws[1..];
    } else {
      assert ws[w := p][1..] == ws[1..][w - 1 := p];
      UpdateMidCall(ws[1..], w - 1, p, a);
    }
  }

  lemma {:induction false} MidCallWithinOwners(ws: seq<Worker>, a: Pid)
    ensures MidCallOf(ws, a) <= OwnersOf(ws, a)
  {
    if ws != [] {
      MidCallWithinOwners(ws[1..], a);
    }
  }

  /** A finished agent keeps its status, and only the call of a step already past its checks can still be charged. */
  lemma {:induction false} StepAfterFinish(c: Config, s: State, l: Label, a: Pid)
    requires Inv(s) && Enabled(s, l) && a < |s.agents| && IsTerminal(StatusOf(s, a))
    ensures var s' := Apply(c, s, l);
      && a < |s'.agents| && StatusOf(s', a) == StatusOf(s, a)
      && s'.agents[a].block.calls + MidCallOf(s'.workers, a) <= s.agents[a].block.calls + MidCallOf(s.workers, a)
  {
    var s' := Apply(c, s, l);
    match l
    case Outside(e) =>
    case By(w, m) =>
      if !m.Pop? && !m.TaskDone? {
        PerformTouches(c, s, w, m);
      }
      UpdateMidCall(s.workers, w, s'.workers[w], a);
  }

  lemma {:induction false} RunAfterFinish(c: Config, s: State, ls: seq<Label>, t: State, a: Pid)
    requires Inv(s) && Runs(c, s, ls, t) && a < |s.agents| && IsTerminal(StatusOf(s, a))
    ensures a < |t.agents| && StatusOf(t, a) == StatusOf(s, a)
    ensures t.agents[a].block.calls + MidCallOf(t.workers, a) <= s.agents[a].block.calls + MidCallOf(s.workers, a)
    decreases |ls|
  {
    if ls != [] {
      StepAfterFinish(c, s, ls[0], a);
      StepKeepsInv(c, s, ls[0]);
      RunAfterFinish(c, Apply(c, s, ls[0]), ls[1..], t, a);
    }
  }

  /**
   From the moment an agent is killed: it stays ZOMBIE in every continuation,
   its result is never forwarded, and it is charged for at most one further
   call: that of the one step already past its checks, if there is one.
   */
  lemma {:induction false} KilledStaysKilled(c: Config, s: State, ls: seq<Label>, t: State, a: Pid)
    requires Reachable(c, s) && Runs(c, s, ls, t) && a < |s.agents| && StatusOf(s, a).Zombie?
    ensures a < |t.agents| && StatusOf(t, a).Zombie?
    ensures a !in t.piped
    ensures t.agents[a].block.calls <= s.agents[a].block.calls + MidCallOf(s.workers, a)
    ensures MidCallOf(s.workers, a) <= 1
  {
    ReachableInv(c, s);
    RunKeepsInv(c, s, ls, t);
    RunAfterFinish(c, s, ls, t, a);
    OwnersCount(s.workers, a);
    MidCallWithinOwners(s.workers, a);
  }

  /** Only results of DONE agents are ever forwarded. */
  lemma {:induction false} OnlyDoneAgentsPipe(c: Config, s: State, a: Pid)
    requires Reachable(c, s) && a in s.piped
    ensures a < |s.agents| && StatusOf(s, a).Done?
  {
    ReachableInv(c, s);
  }

  /** The "unexpected transition" warning is dead code in the thread pool. */
  lemma {:induction false} TransitionsAreExpected(c: Config, s: State, l: Label, a: Pid)
    requires Reachable(c, s) && Enabled(s, l) && a < |s.agents|
    ensures var s' := Apply(c, s, l);
      StatusOf(s', a) == StatusOf(s, a) || Legal(StatusOf(s, a), StatusOf(s', a))
  {
    ReachableInv(c, s);
    match l
    case Outside(e) => EventIsExpected(s, e, a);
    case By(w, m) =>
      if !m.Pop? && !m.TaskDone? {
        PerformTouches(c, s, w, m);
      }
  }

  lemma {:induction false} EventIsExpected(s: State, e: Event, a: Pid)
    requires EventEnabled(s, e) && a < |s.agents|
    ensures var s' := ApplyEvent(s, e);
      StatusOf(s', a) == StatusOf(s, a) || Legal(StatusOf(s, a), StatusOf(s', a))
  {
  }

  // ----- liveness of the machine, and what shutdown may strand -----

  /** A worker that has popped something is never stuck: it has a step to take. */
  lemma {:induction false} BusyWorkersCanMove(c: Config, s: State, w: nat)
    requires Reachable(c, s) && w < |s.workers| && !s.workers[w].Idle?
    ensures exists m :: Enabled(s, By(w, m))
  {
    ReachableInv(c, s);
    var p := s.workers[w];
    var m := NextAct(s, p);
    assert Enabled(s, By(w, m));
  }

  function NextAct(s: State, p: Worker): Act
    requires !p.Idle?
  {
    match p
    case Popped(_) => Inspect
    case Receiving(_) => Receive(false)
    case Parking(_) => Park(true)
    case Failing(_) => Park(true)
    case Requeueing(_) => Requeue
    case Looping(_, _, _) => Loop
    case Acquiring(_, _) => Acquire
    case Stalled(_, _) => MarkBlocked
    case Blocking(_, _) => Wake(CanTake(s.quota, 1))
    case Woken(_, _, _) => Resume
    case Returning(_) => GiveBack
    case Entering(_, _, _) => Enter(true)
    case Marking(_, _, _) => Mark
    case Assembling(_, _, _) => Call
    case Summarising(_, _, _) => Summarised
    case Calling(_, _, _) => CallReturned
    case Charged(_, _, _) => Conclude(Final, true)
    case Closing(_, _, _, _, _) => Close
    case Settling(_, _, _, _, _) => Settle
    case Checking(_, _, _) => Check
    case Piping(_, _) => Pipe
    case Sending(_, _) => Send
    case Yielding(_, _) => Yield
    case Finishing => TaskDone
  }

  lemma {:induction false} RunsCompose(c: Config, s: State, ls: seq<Label>, t: State, ms: seq<Label>, u: State)
    requires Runs(c, s, ls, t) && Runs(c, t, ms, u)
    ensures Runs(c, s, ls + ms, u)
    decreases |ls|
  {
    if ls == [] {
      assert ls + ms == ms;
    } else {
      RunsCompose(c, Apply(c, s, ls[0]), ls[1..], t, ms, u);
      assert (ls + ms)[1..] == ls[1..] + ms;
    }
  }

  lemma {:induction false} RunOne(c: Config, s: State, l: Label, t: State)
    requires Enabled(s, l) && t == Apply(c, s, l)
    ensures Runs(c, s, [l], t)
  {
  }

  lemma {:induction false} Then(c: Config, s: State, l: Label, t: State)
    requires Reachable(c, s) && Enabled(s, l) && t == Apply(c, s, l)
    ensures Reachable(c, t)
  {
    var init, ls :| Initial(init) && Runs(c, init, ls, s);
    RunOne(c, s, l, t);
    RunsCompose(c, init, ls, s, [l], t);
  }

  /** One worker, one plain agent, in the state the arguments describe. */
  function Solo(st: Status, queue: seq<Pid>, inFlight: int, p: Worker, stop: bool): State {
    State([Agent(Agents.Block(Plain, st, 1, 0, 0), 1, 0, false, None)],
          if st.New? then {0} else {}, queue, inFlight, [p], Open(1), 0, map[], {}, stop)
  }

  lemma {:induction false} StrandSpawned(c: Config)
    ensures Reachable(c, Solo(Ready, [0], 0, Idle, false))
  {
    var init := State([], {}, [], 0, [Idle], Open(1), 0, map[], {}, false);
    assert Initial(init) && Runs(c, init, [], init);
    Then(c, init, Outside(Register(Plain, 1, false, None)), Solo(New, [], 0, Idle, false));
    assert {0} - {0} == {};
    Then(c, Solo(New, [], 0, Idle, false), Outside(Enqueue(0)), Solo(Ready, [0], 0, Idle, false));
  }

  lemma {:induction false} StrandPopped(c: Config)
    ensures Reachable(c, Solo(Ready, [], 1, Looping(0, StepLimit(c), false), false))
  {
    StrandSpawned(c);
    Then(c, Solo(Ready, [0], 0, Idle, false), By(0, Pop(0)), Solo(Ready, [], 1, Popped(0), false));
    Then(c, Solo(Ready, [], 1, Popped(0), false), By(0, Inspect),
         Solo(Ready, [], 1, Looping(0, StepLimit(c), false), false));
  }

  lemma {:induction false} StrandStopped(c: Config)
    ensures Reachable(c, Solo(Ready, [], 1, Piping(0, false), true))
  {
    var p := Looping(0, StepLimit(c), false);
    StrandPopped(c);
    Then(c, Solo(Ready, [], 1, p, false), Outside(Stop), Solo(Ready, [], 1, p, true));
    Then(c, Solo(Ready, [], 1, p, true), By(0, Loop), Solo(Ready, [], 1, Piping(0, false), true));
  }

  lemma {:induction false} StrandDropped(c: Config)
    ensures Reachable(c, Solo(Ready, [], 1, Finishing, true))
  {
    StrandStopped(c);
    Then(c, Solo(Ready, [], 1, Piping(0, false), true), By(0, Pipe),
         Solo(Ready, [], 1, Yielding(0, false), true));
    Then(c, Solo(Ready, [], 1, Yielding(0, false), true), By(0, Yield), Solo(Ready, [], 1, Finishing, true));
  }

  /**
   "Drained implies finished" needs the pool to be running: the stop flag, set
   after an agent was popped and before its first step, makes the worker drop it.
   */
  lemma {:induction false} ShutdownCanStrandAnAgent(c: Config)
    ensures exists s :: Reachable(c, s) && s.stop && IsDrained(s)
              && |s.agents| == 1 && s.spawning == {} && StatusOf(s, 0).Ready?
  {
    StrandDropped(c);
    Then(c, Solo(Ready, [], 1, Finishing, true), By(0, TaskDone), Solo(Ready, [], 0, Idle, true));
  }

  ghost predicate LeavesSomeoneBehind(s: State) {
    IsDrained(s) && exists a: Pid :: a < |s.agents| && a !in s.spawning && !IsTerminal(StatusOf(s, a))
  }

  /** A drained pool can hold an unfinished agent if and only if it has been shut down. */
  lemma {:induction false} LeftBehindExactlyAfterShutdown(c: Config, stopped: bool)
    ensures (exists s :: Reachable(c, s) && s.stop == stopped && LeavesSomeoneBehind(s)) <==> stopped
  {
    if stopped {
      ShutdownCanStrandAnAgent(c);
      var s :| Reachable(c, s) && s.stop && IsDrained(s)
        && |s.agents| == 1 && s.spawning == {} && StatusOf(s, 0).Ready?;
      assert LeavesSomeoneBehind(s);
    } else if s :| Reachable(c, s) && !s.stop && LeavesSomeoneBehind(s) {
      DrainedMeansFinished(c, s);
    }
  }
}
