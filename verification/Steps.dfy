/**
 The step runner (gcos/executor.py, gcos/agent_loop.py, gcos/coder.py): one
 call of `run_step` on an agent. Everything the agent cannot see is in a `World`:
 whether the pager raised, what the model replied, whether a kill landed while
 the call was in progress, and what the coder's gates and sandbox decided.
 */
module Steps {
  import opened Basics
  import opened Agents

  datatype Reply = Raised(timeout: bool) | Final | Tool

  datatype World = World(
    gateOpen: bool,         // coder: the prompt passed the policy gate
    contextRaised: Option<bool>, // assembling the context raised; the flag says "it was a timeout"
    reply: Reply,
    killed: bool,           // a kill landed during the LLM call
    sandboxOk: bool,        // coder: the produced code was allowed and ran
    afterRaised: bool)      // handling the reply (parsing, sandbox) raised, after the call was counted

  /** `run_step` returns whether to keep going, or raises to its caller. */
  datatype Outcome = Returned(keep: bool) | Crashed

  /** The budget checks at the head of every step. */
  predicate Refused(b: Block) {
    b.quota <= 0 || (b.kind.React? && b.step >= b.kind.maxToolCalls)
  }

  function Charge(b: Block): Block {
    b.(quota := b.quota - 1, calls := b.calls + 1)
  }

  function Advance(b: Block): Block {
    if b.kind.React? then b.(step := b.step + 1) else b
  }

  function Failure(timeout: bool): Status {
    if timeout then Timeout else Error
  }

  function With(b: Block, t: Status): Block {
    b.(status := Move(b.status, t))
  }

  /** The status that a successful call concludes with; None when a React agent used a tool. */
  function Conclusion(k: Kind, reply: Reply, sandboxOk: bool): Option<Status> {
    match k
    case Plain => Some(Done)
    case Coder => Some(if sandboxOk then Done else Error)
    case React(_) => if reply.Tool? then None else Some(Done)
  }

  /** What happens from a successful call on: the kill check, then conclude or continue. */
  function AfterCall(b: Block, w: World): (Block, Outcome) {
    if b.status.Zombie? then (b, Returned(false))
    else if w.afterRaised then (b, Crashed)
    else
      var a, t := Advance(b), Conclusion(b.kind, w.reply, w.sandboxOk);
      if t.None? then (a, Returned(true)) else (With(a, t.value), Returned(false))
  }

  /** One call of `run_step`. */
  function RunStep(b: Block, w: World): (Block, Outcome) {
    if IsTerminal(b.status) then (b, Returned(false))
    else if b.kind.Coder? && !w.gateOpen then (With(b, Error), Returned(false))
    else if Refused(b) then (With(b, Error), Returned(false))
    else
      var r := With(b, Running);
      if w.contextRaised.Some? then
        if b.kind.Plain? then (With(r, Failure(w.contextRaised.value)), Returned(false)) else (r, Crashed)
      else
        var k := if w.killed then With(r, Zombie) else r;
        if w.reply.Raised? then (With(k, Failure(w.reply.timeout)), Returned(false))
        else AfterCall(Charge(k), w)
  }

  /** The number of calls an agent of this kind may ever make, its own quota aside. */
  function Limit(k: Kind): nat {
    match k
    case React(m) => if m < 0 then 0 else m
    case _ => 1
  }

  /** The agent's own count of completed calls; for single-shot kinds there is none to come back to. */
  function Progress(b: Block): nat {
    if b.kind.React? then b.step else 0
  }

  /**
   What the worker pool relies on: a step never touches a finished agent, makes
   at most one call and pays for it from the agent's quota, and says "do not
   requeue me" only for an agent that is terminal. "Requeue me" always comes with a call.
   */
  predicate StepContract(b: Block, b': Block, out: Outcome) {
    && b'.kind == b.kind
    && b'.quota + b'.calls == b.quota + b.calls
    && b.calls <= b'.calls <= b.calls + 1
    && (IsTerminal(b.status) ==> b' == b && out == Returned(false))
    && (out == Returned(false) ==> IsTerminal(b'.status))
    && (out == Returned(true) ==> b'.calls == b.calls + 1 && b'.step == b.step + 1 && b'.status.Running?)
    && (b'.calls > b.calls ==> 0 < b.quota && Progress(b) < Limit(b.kind))
  }

  lemma {:induction false} EveryStepMeetsTheContract(b: Block, w: World)
    ensures var (b', out) := RunStep(b, w); StepContract(b, b', out)
  {
  }

  // ----- what a step comes to, case by case -----

  /** The budgets and the coder's gate let the step begin. */
  predicate MayBegin(b: Block, w: World) {
    && b.quota > 0
    && (b.kind.React? ==> b.step < b.kind.maxToolCalls)
    && (b.kind.Coder? ==> w.gateOpen)
  }

  /** A finished agent is left alone; an exhausted budget or a closed gate is an error, without a call. */
  lemma {:induction false} StepThatMayNotBegin(b: Block, w: World)
    ensures IsTerminal(b.status) ==> RunStep(b, w) == (b, Returned(false))
    ensures !IsTerminal(b.status) && !MayBegin(b, w) ==> RunStep(b, w) == (b.(status := Error), Returned(false))
  {
  }

  /** Assembling the context raises: a plain agent times out or fails, the others' steps crash before the call. */
  lemma {:induction false} StepWhoseContextRaises(b: Block, w: World)
    requires !IsTerminal(b.status) && MayBegin(b, w) && w.contextRaised.Some?
    ensures RunStep(b, w)
         == if b.kind.Plain? then (b.(status := if w.contextRaised.value then Timeout else Error), Returned(false))
            else (b.(status := Running), Crashed)
  {
  }

  /** The call raises: ZOMBIE if killed meanwhile, else TIMEOUT or ERROR; nothing is charged. */
  lemma {:induction false} StepWhoseCallRaises(b: Block, w: World)
    requires !IsTerminal(b.status) && MayBegin(b, w) && w.contextRaised.None? && w.reply.Raised?
    ensures RunStep(b, w)
         == (b.(status := if w.killed then Zombie else if w.reply.timeout then Timeout else Error), Returned(false))
  {
  }

  /** The call returns: it is charged whatever follows, and only a tool reply leaves the agent running. */
  lemma {:induction false} StepWhoseCallReturns(b: Block, w: World)
    requires !IsTerminal(b.status) && MayBegin(b, w) && w.contextRaised.None? && !w.reply.Raised?
    ensures var paid, stepped := b.(quota := b.quota - 1, calls := b.calls + 1), b.step + 1;
      RunStep(b, w)
      == if w.killed then (paid.(status := Zombie), Returned(false))
         else if w.afterRaised then (paid.(status := Running), Crashed)
         else match b.kind
              case Plain => (paid.(status := Done), Returned(false))
              case Coder => (paid.(status := if w.sandboxOk then Done else Error), Returned(false))
              case React(_) =>
                if w.reply.Tool? then (paid.(status := Running, step := stepped), Returned(true))
                else (paid.(status := Done, step := stepped), Returned(false))
  {
  }

  // ----- driving an agent to completion: `run_agent` and the forked child -----

  /** Run steps until the agent is terminal, a step says stop, a step raises, or the worlds run out. */
  function Drive(b: Block, ws: seq<World>): (r: (Block, bool))
    ensures r.0.kind == b.kind
    ensures r.0.quota + r.0.calls == b.quota + b.calls
    ensures b.calls <= r.0.calls
    decreases |ws|
  {
    if ws == [] || IsTerminal(b.status) then (b, false)
    else
      var (b', out) := RunStep(b, ws[0]);
      if out.Crashed? then (b', true)
      else if !out.keep then (b', false)
      else Drive(b', ws[1..])
  }

  /** A step that neither finishes the agent nor stops early. */
  predicate Continues(w: World) {
    w.contextRaised.None? && w.reply.Tool? && !w.killed && !w.afterRaised
  }

  predicate ToolsAllTheWay(b: Block, ws: seq<World>) {
    && b.kind.React?
    && |ws| <= b.quota
    && b.step + |ws| <= b.kind.maxToolCalls
    && forall i :: 0 <= i < |ws| ==> Continues(ws[i])
  }

  /** No run of steps spends more than the quota it starts with. */
  lemma {:induction false} DriveStaysWithinQuota(b: Block, ws: seq<World>)
    ensures Drive(b, ws).0.calls - b.calls <= if b.quota < 0 then 0 else b.quota
    ensures Drive(b, ws).0.calls - b.calls <= |ws|
    decreases |ws|
  {
    if ws != [] && !IsTerminal(b.status) {
      var (b', out) := RunStep(b, ws[0]);
      EveryStepMeetsTheContract(b, ws[0]);
      if out == Returned(true) {
        DriveStaysWithinQuota(b', ws[1..]);
      }
    }
  }

  /**
   Exactly when a bounded drive gives up on an unfinished agent: every one of
   the |ws| steps was a tool step and neither budget ran out first.
   */
  lemma {:induction false} DriveGivesUpExactlyWhen(b: Block, ws: seq<World>)
    requires !IsTerminal(b.status)
    ensures (!IsTerminal(Drive(b, ws).0.status) && !Drive(b, ws).1)
         <==> (ws == [] || ToolsAllTheWay(b, ws))
    decreases |ws|
  {
    if ws != [] {
      var (b', out) := RunStep(b, ws[0]);
      EveryStepMeetsTheContract(b, ws[0]);
      var rest := ws[1..];
      if out == Returned(true) {
        assert Continues(ws[0]) && b.kind.React?;
        DriveGivesUpExactlyWhen(b', rest);
        assert forall i :: 0 <= i < |rest| ==> rest[i] == ws[i + 1];
        assert forall i :: 1 <= i < |ws| ==> ws[i] == rest[i - 1];
      } else {
        assert !(b.kind.React? && 1 <= b.quota && b.step + 1 <= b.kind.maxToolCalls && Continues(ws[0]));
      }
    }
  }

  const RUN_AGENT_CAP := 32
  const CHILD_STEP_CAP := 64
}
