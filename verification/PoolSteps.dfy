/**
 The other direction of StepRefinement: whatever interleaves with it, a kill at
 any point included, every step that a worker of the pool takes meets the contract
 proved of the step runner.
 */
module PoolSteps {
  import opened Agents
  import opened Steps
  import opened Dispatch
  import opened DispatchInvariant
  import opened DispatchProofs
  import opened DispatchTheorems

  /** Between taking the unit and settling it, on agent a whose call count was `before`. */
  predicate InStep(p: Worker, a: Pid, before: nat) {
    && (BeforeCall(p) || p.Calling? || p.Charged? || p.Closing? || p.Settling?)
    && p.a == a && p.before == before
  }

  /** A finished agent is not touched: the step returns at once. */
  predicate AtRest(p: Worker) {
    p.Entering? || (p.Settling? && !p.charged && !p.keep)
  }

  /** Worker w is inside the step that began when agent a's block was b. */
  predicate Within(s: State, w: nat, a: Pid, b: Block, granted: int) {
    && w < |s.workers| && a < |s.agents| && InStep(s.workers[w], a, b.calls)
    && s.agents[a].block.kind == b.kind && s.agents[a].granted == granted
    && (IsTerminal(b.status) ==> s.agents[a].block == b && AtRest(s.workers[w]))
  }

  predicate BeforeCall(p: Worker) {
    p.Entering? || p.Marking? || p.Assembling? || p.Summarising?
  }

  lemma {:induction false} EarlyActStaysWithin(c: Config, s: State, w: nat, m: Act, a: Pid, b: Block, granted: int)
    requires Within(s, w, a, b, granted) && CanDo(s, s.workers[w], m) && BeforeCall(s.workers[w])
    ensures Within(Perform(c, s, w, m), w, a, b, granted)
  {
  }

  lemma {:induction false} LateActStaysWithin(c: Config, s: State, w: nat, m: Act, a: Pid, b: Block, granted: int)
    requires Within(s, w, a, b, granted) && CanDo(s, s.workers[w], m) && !BeforeCall(s.workers[w]) && !m.Settle?
    ensures Within(Perform(c, s, w, m), w, a, b, granted)
  {
  }

  lemma {:induction false} OwnActStaysWithin(c: Config, s: State, w: nat, m: Act, a: Pid, b: Block, granted: int)
    requires Within(s, w, a, b, granted) && Enabled(s, By(w, m)) && !m.Settle?
    ensures Within(Apply(c, s, By(w, m)), w, a, b, granted)
  {
    if BeforeCall(s.workers[w]) {
      EarlyActStaysWithin(c, s, w, m, a, b, granted);
    } else {
      LateActStaysWithin(c, s, w, m, a, b, granted);
    }
  }

  lemma {:induction false} EventStaysWithin(s: State, e: Event, w: nat, a: Pid, b: Block, granted: int)
    requires Within(s, w, a, b, granted) && EventEnabled(s, e)
    ensures Within(ApplyEvent(s, e), w, a, b, granted)
  {
  }

  lemma {:induction false} OtherActStaysWithin(
      c: Config, s: State, v: nat, m: Act, w: nat, a: Pid, b: Block, granted: int)
    requires Inv(s) && Within(s, w, a, b, granted) && Enabled(s, By(v, m)) && v != w
    ensures Within(Apply(c, s, By(v, m)), w, a, b, granted)
  {
    if !m.Pop? && !m.TaskDone? {
      PerformTouches(c, s, v, m);
      assert Owner(s.workers[w]) == a;
      assert Owner(s.workers[v]) != a;
    }
  }

  lemma {:induction false} RunStaysWithin(
      c: Config, s: State, ls: seq<Label>, t: State, w: nat, a: Pid, b: Block, granted: int)
    requires Inv(s) && Within(s, w, a, b, granted) && Runs(c, s, ls, t) && By(w, Settle) !in ls
    ensures Within(t, w, a, b, granted)
    decreases |ls|
  {
    if ls != [] {
      var l := ls[0];
      if l.Outside? {
        EventStaysWithin(s, l.event, w, a, b, granted);
      } else if l.w == w {
        OwnActStaysWithin(c, s, w, l.act, a, b, granted);
      } else {
        OtherActStaysWithin(c, s, l.w, l.act, w, a, b, granted);
      }
      StepKeepsInv(c, s, l);
      RunStaysWithin(c, Apply(c, s, l), ls[1..], t, w, a, b, granted);
    }
  }

  /** The block at the end of a step, but for a kill that may have landed after "keep going" was decided. */
  function BarKill(b: Block, keep: bool): Block {
    if keep then b.(status := Running) else b
  }

  lemma {:induction false} ContractHolds(stop: bool, g: Agent, p: Worker, stop': bool, g': Agent, p': Worker)
    requires p.Entering? && WorkerOk(stop, g, p) && AgentOk(g)
    requires p'.Settling? && WorkerOk(stop', g', p') && AgentOk(g') && p'.before == g.block.calls
    requires g'.block.kind == g.block.kind && g'.granted == g.granted
    requires IsTerminal(g.block.status) ==> g'.block == g.block && AtRest(p')
    ensures StepContract(g.block, BarKill(g'.block, p'.keep), Returned(p'.keep))
  {
  }

  /**
   From the moment a worker enters a step to the moment it settles, with any
   steps of anybody in between, the agent's block changes as the contract says.
   */
  lemma {:induction false} EveryPoolStepMeetsTheContract(c: Config, s: State, ls: seq<Label>, t: State, w: nat)
    requires Reachable(c, s) && w < |s.workers| && s.workers[w].Entering?
    requires Runs(c, s, ls, t) && By(w, Settle) !in ls && w < |t.workers| && t.workers[w].Settling?
    ensures var a, keep := s.workers[w].a, t.workers[w].keep;
      && a == t.workers[w].a && a < |s.agents| && a < |t.agents|
      && StepContract(s.agents[a].block, BarKill(t.agents[a].block, keep), Returned(keep))
  {
    ReachableInv(c, s);
    RunKeepsInv(c, s, ls, t);
    var a := s.workers[w].a;
    assert Owner(s.workers[w]) == a;
    var g := s.agents[a];
    assert WorkerOk(s.stop, g, s.workers[w]) && AgentOk(g);
    RunStaysWithin(c, s, ls, t, w, a, g.block, g.granted);
    assert Owner(t.workers[w]) == a;
    assert WorkerOk(t.stop, t.agents[a], t.workers[w]) && AgentOk(t.agents[a]);
    ContractHolds(s.stop, g, s.workers[w], t.stop, t.agents[a], t.workers[w]);
  }
}
