/**
 The step runner as it mutates a control block: `run_react_step`
 (gcos/agent_loop.py), `_run_plain_step` and `run_agent` (gcos/executor.py),
 `run_coder_step` (gcos/coder.py).
 Each method is proved equal to the functions of module Steps.
 */
module StepRunner {
  import opened Agents
  import opened Steps

  /** The LLM call itself: a kill may land while it is in progress. */
  method Chat(pcb: ControlBlock, w: World, now: real)
    requires pcb.Valid()
    modifies pcb`status, pcb`startedAt, pcb`finishedAt
    ensures pcb.Valid()
    ensures pcb.status == if w.killed then Move(old(pcb.status), Zombie) else old(pcb.status)
  {
    if w.killed {
      var _, _ := pcb.Transition(Zombie, now);
    }
  }

  method RunReactStep(pcb: ControlBlock, w: World, now: real) returns (out: Outcome)
    requires pcb.Valid() && pcb.kind.React?
    modifies pcb
    ensures pcb.Valid()
    ensures (pcb.View(), out) == RunStep(old(pcb.View()), w)
  {
    if IsTerminal(pcb.status) {
      return Returned(false);
    }
    if pcb.quota <= 0 || pcb.step >= pcb.kind.maxToolCalls {
      var _, _ := pcb.Transition(Error, now);
      return Returned(false);
    }
    if !pcb.status.Running? {
      var _, _ := pcb.Transition(Running, now);
    }
    if w.contextRaised.Some? {
      return Crashed;  // assembling happens outside the try block
    }
    Chat(pcb, w, now);
    if w.reply.Raised? {
      var _, _ := pcb.Transition(Failure(w.reply.timeout), now);
      return Returned(false);
    }
    pcb.quota := pcb.quota - 1;
    pcb.calls := pcb.calls + 1;
    if pcb.status.Zombie? {
      return Returned(false);
    }
    if w.afterRaised {
      return Crashed;
    }
    pcb.step := pcb.step + 1;
    if w.reply.Final? {
      var _, _ := pcb.Transition(Done, now);
      return Returned(false);
    }
    return Returned(true);
  }

  method RunPlainStep(pcb: ControlBlock, w: World, now: real) returns (out: Outcome)
    requires pcb.Valid() && pcb.kind.Plain?
    modifies pcb
    ensures pcb.Valid()
    ensures (pcb.View(), out) == RunStep(old(pcb.View()), w)
  {
    if IsTerminal(pcb.status) {
      return Returned(false);
    }
    if pcb.quota <= 0 {
      var _, _ := pcb.Transition(Error, now);
      return Returned(false);
    }
    if !pcb.status.Running? {
      var _, _ := pcb.Transition(Running, now);
    }
    if w.contextRaised.Some? {
      // here assembling happens inside the try block
      var _, _ := pcb.Transition(Failure(w.contextRaised.value), now);
      return Returned(false);
    }
    Chat(pcb, w, now);
    if w.reply.Raised? {
      var _, _ := pcb.Transition(Failure(w.reply.timeout), now);
      return Returned(false);
    }
    pcb.quota := pcb.quota - 1;
    pcb.calls := pcb.calls + 1;
    if pcb.status.Zombie? {
      return Returned(false);
    }
    if w.afterRaised {
      return Crashed;
    }
    var _, _ := pcb.Transition(Done, now);
    return Returned(false);
  }

  method RunCoderStep(pcb: ControlBlock, w: World, now: real) returns (out: Outcome)
    requires pcb.Valid() && pcb.kind.Coder?
    modifies pcb
    ensures pcb.Valid()
    ensures (pcb.View(), out) == RunStep(old(pcb.View()), w)
  {
    if IsTerminal(pcb.status) {
      return Returned(false);
    }
    if !w.gateOpen || pcb.quota <= 0 {
      var _, _ := pcb.Transition(Error, now);
      return Returned(false);
    }
    var _, _ := pcb.Transition(Running, now);
    if w.contextRaised.Some? {
      return Crashed;
    }
    Chat(pcb, w, now);
    if w.reply.Raised? {
      var _, _ := pcb.Transition(Failure(w.reply.timeout), now);
      return Returned(false);
    }
    pcb.quota := pcb.quota - 1;
    pcb.calls := pcb.calls + 1;
    if pcb.status.Zombie? {
      return Returned(false);
    }
    if w.afterRaised {
      return Crashed;
    }
    var _, _ := pcb.Transition(if w.sandboxOk then Done else Error, now);
    return Returned(false);
  }

  /** `run_step`: which path an agent takes. */
  method RunStepOn(pcb: ControlBlock, w: World, now: real) returns (out: Outcome)
    requires pcb.Valid()
    modifies pcb
    ensures pcb.Valid()
    ensures (pcb.View(), out) == RunStep(old(pcb.View()), w)
  {
    if pcb.kind.React? {
      out := RunReactStep(pcb, w, now);
    } else if pcb.kind.Coder? {
      out := RunCoderStep(pcb, w, now);
    } else {
      out := RunPlainStep(pcb, w, now);
    }
  }

  /**
   The bounded drive loop: `run_agent` calls it with 32 steps, a forked child
   with 64. An agent left unfinished has used up every step on tool calls.
   */
  method DriveAgent(pcb: ControlBlock, worlds: seq<World>, now: real) returns (crashed: bool)
    requires pcb.Valid()
    modifies pcb
    ensures pcb.Valid()
    ensures (pcb.View(), crashed) == Drive(old(pcb.View()), worlds)
    ensures !old(IsTerminal(pcb.status)) && !crashed && !IsTerminal(pcb.status) ==>
              worlds == [] || ToolsAllTheWay(old(pcb.View()), worlds)
  {
    ghost var start := pcb.View();
    if !IsTerminal(start.status) {
      DriveGivesUpExactlyWhen(start, worlds);
    }
    var i := 0;
    while !IsTerminal(pcb.status) && i < |worlds|
      invariant pcb.Valid() && i <= |worlds|
      invariant Drive(start, worlds) == Drive(pcb.View(), worlds[i..])
      decreases |worlds| - i
    {
      var out := RunStepOn(pcb, worlds[i], now);
      assert worlds[i..][1..] == worlds[i + 1..];
      i := i + 1;
      if out.Crashed? {
        return true;
      }
      if !out.keep {
        return false;
      }
    }
    return false;
  }
}
