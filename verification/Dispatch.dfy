/**
 The thread pool as a state machine (gcos/kernel/worker_pool.py,
 gcos/kernel/ready_queue.py, gcos/kernel/quota.py, gcos/ipc/message_bus.py,
 and spawn and kill of gcos/kernel/kernel.py).

 N workers, spawners, killers and administrators interleave freely. Every
 lock-protected section, every `transition` and every read of an agent's status
 is one step, so a kill can land between any two of them. The scheduler may pick
 any queue entry, which covers FCFS, RR and Priority alike.

 An agent is named by its position in `agents`, in spawn order.
 */
module Dispatch {
  import opened Basics
  import opened Agents
  import opened Steps
  import opened Quotas
  import opened MessageBuses

  type Pid = nat

  const NONPREEMPTIVE_STEP_CAP := 10_000

  datatype Config = Config(quantum: Option<int>, hasBus: bool, mailboxCap: int)

  /** The bound of the `for` loop over steps in one dispatch. */
  function StepLimit(c: Config): (n: nat)
    ensures 1 <= n
  {
    if c.quantum.None? then NONPREEMPTIVE_STEP_CAP else Max(1, c.quantum.value)
  }

  /**
   `block` is what the step runner works on. `granted` is the quota at spawn and
   `entries` counts the calls of the step runner on this agent.
   */
  datatype Agent = Agent(block: Block, granted: int, entries: nat, needsInput: bool, pipeTo: Option<Pid>)

  /**
   Where a worker is. `before` is the saved `llm_calls_used`; `charged` records
   for the proofs whether the step made its call (the code compares counters).
   */
  datatype Worker =
    | Idle
    | Popped(a: Pid)                                    // before the is_terminal check
    | Receiving(a: Pid)                                 // in bus.recv
    | Parking(a: Pid)                                   // no input: WAITING, or ERROR past the deadline
    | Requeueing(a: Pid)                                // before queue.put
    | Looping(a: Pid, left: nat, keep: bool)            // head of the quantum loop
    | Acquiring(a: Pid, left: nat)                      // before quota.acquire
    | Stalled(a: Pid, left: nat)                        // acquire failed, before BLOCKED
    | Blocking(a: Pid, left: nat)                       // in acquire_blocking
    | Woken(a: Pid, left: nat, got: bool)               // before the stop check
    | Returning(a: Pid)                                 // stopped while holding a unit: before refund
    | Entering(a: Pid, left: nat, before: nat)          // holds a unit; head of the step runner
    | Marking(a: Pid, left: nat, before: nat)           // before transition(RUNNING)
    | Assembling(a: Pid, left: nat, before: nat)        // the pager may ask for summaries
    | Summarising(a: Pid, left: nat, before: nat)       // holds a second unit
    | Calling(a: Pid, left: nat, before: nat)           // in client.chat
    | Charged(a: Pid, left: nat, before: nat)           // call counted, before the kill check
    | Closing(a: Pid, left: nat, before: nat, charged: bool, to: Status)  // before a terminal transition
    | Settling(a: Pid, left: nat, before: nat, charged: bool, keep: bool) // refund if no call was made
    | Checking(a: Pid, left: nat, keep: bool)           // after the step, before the is_terminal check
    | Piping(a: Pid, keep: bool)                        // before reading state == DONE
    | Sending(a: Pid, keep: bool)                       // before bus.send
    | Yielding(a: Pid, keep: bool)                      // before the last is_terminal check
    | Failing(a: Pid)                                   // no message bus: before ERROR
    | Finishing                                         // before task_done

  /** `piped` is history: the agents whose result was forwarded. */
  datatype State = State(
    agents: seq<Agent>,
    spawning: set<Pid>,
    queue: seq<Pid>,
    inFlight: int,
    workers: seq<Worker>,
    quota: Account,
    summaries: nat,
    mail: map<Pid, seq<Pid>>,
    piped: set<Pid>,
    stop: bool)

  function Mailbox(s: State, a: Pid): seq<Pid> {
    if a in s.mail then s.mail[a] else []
  }

  predicate Initial(s: State) {
    && s.agents == [] && s.spawning == {} && s.queue == [] && s.inFlight == 0
    && (forall w :: 0 <= w < |s.workers| ==> s.workers[w].Idle?)
    && s.quota.total >= 0 && s.quota == Open(s.quota.total)
    && s.summaries == 0 && s.mail == map[] && s.piped == {} && !s.stop
  }

  /** The world outside the pool. */
  datatype Event =
    | Register(kind: Kind, granted: int, needsInput: bool, pipeTo: Option<Pid>)
    | Announce(a: Pid)          // spawn: input_from set, so WAITING
    | Enqueue(a: Pid)           // spawn: queue.put
    | Kill(a: Pid)              // kill or reap: transition(ZOMBIE)
    | Unqueue(a: Pid)           // kill: queue.pop
    | DropMailbox(a: Pid)
    | TopUp(n: int)
    | Stop

  /** One step of a worker; the parameters are what the environment decides. */
  datatype Act =
    | Pop(i: nat)               // the scheduler's pick
    | Inspect
    | Receive(stillNeedsInput: bool)
    | Park(expired: bool)
    | Requeue
    | Loop
    | Acquire
    | MarkBlocked
    | Wake(got: bool)
    | Resume                    // after acquire_blocking: read the stop flag
    | GiveBack
    | Enter(gateOpen: bool)
    | Mark
    | Summarise
    | Summarised
    | SummaryRaised(timeout: bool)
    | ContextRaised(timeout: bool)
    | Call
    | CallReturned
    | CallRaised(timeout: bool)
    | Conclude(reply: Reply, sandboxOk: bool)
    | StepCrashed               // the step runner raises after the call
    | Close
    | Settle
    | Check
    | Pipe
    | Send
    | Yield
    | TaskDone

  datatype Label = Outside(event: Event) | By(w: nat, act: Act)

  // ----- building blocks -----

  /** The agent a worker owns: from its pop until it puts the agent back or drops it; -1 for none. */
  function Owner(p: Worker): int {
    if p.Idle? || p.Finishing? then -1 else p.a
  }

  /** Worker w holds an agent that exists. */
  predicate Holds(s: State, w: nat) {
    w < |s.workers| && 0 <= Owner(s.workers[w]) < |s.agents|
  }

  function At(s: State, w: nat, pc: Worker): State
    requires w < |s.workers|
  {
    s.(workers := s.workers[w := pc])
  }

  function WithAgent(s: State, a: Pid, g: Agent): State
    requires a < |s.agents|
  {
    s.(agents := s.agents[a := g])
  }

  function StatusOf(s: State, a: Pid): Status
    requires a < |s.agents|
  {
    s.agents[a].block.status
  }

  function Moved(g: Agent, t: Status): Agent {
    g.(block := With(g.block, t))
  }

  /** Worker w's transition(t) of its agent, then on to pc. */
  function MoveAt(s: State, w: nat, t: Status, pc: Worker): State
    requires Holds(s, w)
  {
    var a := Owner(s.workers[w]);
    At(WithAgent(s, a, Moved(s.agents[a], t)), w, pc)
  }

  /** `ReadyQueue.put`: a terminal agent is refused. */
  function Put(s: State, a: Pid): State
    requires a < |s.agents|
  {
    if IsTerminal(StatusOf(s, a)) then s
    else WithAgent(s, a, Moved(s.agents[a], Ready)).(queue := s.queue + [a])
  }

  /** `deque.remove`: drops the first occurrence. */
  function Remove(q: seq<Pid>, a: Pid): seq<Pid> {
    if q == [] then []
    else if q[0] == a then q[1..]
    else [q[0]] + Remove(q[1..], a)
  }

  // ----- steps of the world outside the pool -----

  function Registered(s: State, kind: Kind, granted: int, needsInput: bool, pipeTo: Option<Pid>): State {
    var b := Agents.Block(kind, New, granted, 0, 0);
    s.(agents := s.agents + [Agent(b, granted, 0, needsInput, pipeTo)], spawning := s.spawning + {|s.agents|})
  }

  // ----- steps of a worker -----

  function DoPop(s: State, w: nat, i: nat): State
    requires w < |s.workers| && i < |s.queue|
  {
    At(s, w, Popped(s.queue[i])).(queue := Without(s.queue, i), inFlight := s.inFlight + 1)
  }

  function DoInspect(c: Config, s: State, w: nat): State
    requires Holds(s, w)
  {
    var a := Owner(s.workers[w]);
    if IsTerminal(StatusOf(s, a)) then At(s, w, Finishing)
    else if !s.agents[a].needsInput then At(s, w, Looping(a, StepLimit(c), false))
    else if !c.hasBus then At(s, w, Failing(a))
    else At(s, w, Receiving(a))
  }

  function DoReceive(c: Config, s: State, w: nat, stillNeedsInput: bool): State
    requires Holds(s, w)
  {
    var a := Owner(s.workers[w]);
    var box := Mailbox(s, a);
    if box == [] then At(s, w, Parking(a))
    else
      At(WithAgent(s, a, s.agents[a].(needsInput := stillNeedsInput)), w, Looping(a, StepLimit(c), false))
        .(mail := s.mail[a := box[1..]])
  }

  function DoPark(s: State, w: nat, expired: bool): State
    requires Holds(s, w)
  {
    if s.workers[w].Failing? || expired then MoveAt(s, w, Error, Finishing)
    else MoveAt(s, w, Waiting, Requeueing(Owner(s.workers[w])))
  }

  function DoRequeue(s: State, w: nat): State
    requires Holds(s, w) && s.workers[w].Requeueing?
  {
    At(Put(s, Owner(s.workers[w])), w, Finishing)
  }

  function DoLoop(s: State, w: nat): State
    requires Holds(s, w) && s.workers[w].Looping?
  {
    var p := s.workers[w];
    if p.left == 0 || s.stop then At(s, w, Piping(p.a, p.keep))
    else At(s, w, Acquiring(p.a, p.left - 1))
  }

  function DoAcquire(s: State, w: nat): State
    requires Holds(s, w) && s.workers[w].Acquiring?
  {
    var p := s.workers[w];
    if CanTake(s.quota, 1) then
      At(s, w, Entering(p.a, p.left, s.agents[p.a].block.calls)).(quota := Take(s.quota, 1))
    else At(s, w, Stalled(p.a, p.left))
  }

  function DoWake(s: State, w: nat, got: bool): State
    requires Holds(s, w) && s.workers[w].Blocking?
  {
    var p := s.workers[w];
    At(s, w, Woken(p.a, p.left, got)).(quota := if got then Take(s.quota, 1) else s.quota)
  }

  function DoResume(s: State, w: nat): State
    requires Holds(s, w) && s.workers[w].Woken?
  {
    var p := s.workers[w];
    if s.stop then At(s, w, if p.got then Returning(p.a) else Requeueing(p.a))
    else At(s, w, if p.got then Entering(p.a, p.left, s.agents[p.a].block.calls) else Requeueing(p.a))
  }

  function DoEnter(s: State, w: nat, gateOpen: bool): State
    requires Holds(s, w) && s.workers[w].Entering?
  {
    var p := s.workers[w];
    var g := s.agents[p.a];
    At(WithAgent(s, p.a, g.(entries := g.entries + 1)), w,
       if IsTerminal(g.block.status) then Settling(p.a, p.left, p.before, false, false)
       else if Refused(g.block) || (g.block.kind.Coder? && !gateOpen) then
         Closing(p.a, p.left, p.before, false, Error)
       else Marking(p.a, p.left, p.before))
  }

  function DoMarkBlocked(s: State, w: nat): State
    requires Holds(s, w) && s.workers[w].Stalled?
  {
    var p := s.workers[w];
    MoveAt(s, w, Blocked, Blocking(p.a, p.left))
  }

  function DoGiveBack(s: State, w: nat): State
    requires Holds(s, w) && s.workers[w].Returning?
  {
    At(s, w, Requeueing(Owner(s.workers[w]))).(quota := Refund(s.quota, 1))
  }

  function DoMark(s: State, w: nat): State
    requires Holds(s, w) && s.workers[w].Marking?
  {
    var p := s.workers[w];
    MoveAt(s, w, Running, Assembling(p.a, p.left, p.before))
  }

  function DoSummarise(s: State, w: nat): State
    requires Holds(s, w) && s.workers[w].Assembling?
  {
    var p := s.workers[w];
    At(s, w, Summarising(p.a, p.left, p.before)).(quota := Take(s.quota, 1))
  }

  function DoSummarised(s: State, w: nat): State
    requires Holds(s, w) && s.workers[w].Summarising?
  {
    var p := s.workers[w];
    At(s, w, Assembling(p.a, p.left, p.before)).(summaries := s.summaries + 1)
  }

  function DoCall(s: State, w: nat): State
    requires Holds(s, w) && s.workers[w].Assembling?
  {
    var p := s.workers[w];
    At(s, w, Calling(p.a, p.left, p.before))
  }

  /** The step raised, or the call did: on to the terminal transition. */
  function DoRaise(s: State, w: nat, to: Status): State
    requires Holds(s, w)
    requires var p := s.workers[w]; p.Assembling? || p.Summarising? || p.Calling? || p.Charged?
  {
    var p := s.workers[w];
    At(s, w, Closing(p.a, p.left, p.before, p.Charged?, to))
  }

  function DoCallReturned(s: State, w: nat): State
    requires Holds(s, w) && s.workers[w].Calling?
  {
    var p := s.workers[w];
    var g := s.agents[p.a];
    At(WithAgent(s, p.a, g.(block := Charge(g.block))), w, Charged(p.a, p.left, p.before))
  }

  function DoConclude(s: State, w: nat, reply: Reply, sandboxOk: bool): State
    requires Holds(s, w) && s.workers[w].Charged?
  {
    var p := s.workers[w];
    var g := s.agents[p.a];
    if g.block.status.Zombie? then At(s, w, Settling(p.a, p.left, p.before, true, false))
    else
      var t := Conclusion(g.block.kind, reply, sandboxOk);
      At(WithAgent(s, p.a, g.(block := Advance(g.block))), w,
         if t.None? then Settling(p.a, p.left, p.before, true, true)
         else Closing(p.a, p.left, p.before, true, t.value))
  }

  /** Also the worker's handler for a step that raised: transition, do not keep going. */
  function DoClose(s: State, w: nat): State
    requires Holds(s, w) && s.workers[w].Closing?
  {
    var p := s.workers[w];
    MoveAt(s, w, p.to, Settling(p.a, p.left, p.before, p.charged, false))
  }

  function DoSettle(s: State, w: nat): State
    requires Holds(s, w) && s.workers[w].Settling?
  {
    var p := s.workers[w];
    At(s, w, Checking(p.a, p.left, p.keep))
      .(quota := if s.agents[p.a].block.calls == p.before then Refund(s.quota, 1) else s.quota)
  }

  function DoCheck(s: State, w: nat): State
    requires Holds(s, w) && s.workers[w].Checking?
  {
    var p := s.workers[w];
    At(s, w, if IsTerminal(StatusOf(s, p.a)) || !p.keep then Piping(p.a, p.keep) else Looping(p.a, p.left, p.keep))
  }

  function DoPipe(c: Config, s: State, w: nat): State
    requires Holds(s, w) && s.workers[w].Piping?
  {
    var p := s.workers[w];
    At(s, w, if StatusOf(s, p.a).Done? && s.agents[p.a].pipeTo.Some? && c.hasBus then Sending(p.a, p.keep)
             else Yielding(p.a, p.keep))
  }

  /** Non-blocking: a message to a full mailbox is dropped. */
  function DoSend(c: Config, s: State, w: nat): State
    requires Holds(s, w) && s.workers[w].Sending?
  {
    var p := s.workers[w];
    var to := s.agents[p.a].pipeTo;
    var s1 := At(s, w, Yielding(p.a, p.keep)).(piped := s.piped + {p.a});
    if to.Some? && HasRoom(c.mailboxCap, |Mailbox(s, to.value)|) then
      s1.(mail := s.mail[to.value := Mailbox(s, to.value) + [p.a]])
    else s1
  }

  function DoYield(s: State, w: nat): State
    requires Holds(s, w) && s.workers[w].Yielding?
  {
    var p := s.workers[w];
    At(s, w, if p.keep && !IsTerminal(StatusOf(s, p.a)) then Requeueing(p.a) else Finishing)
  }

  function DoTaskDone(s: State, w: nat): State
    requires w < |s.workers|
  {
    At(s, w, Idle).(inFlight := if s.inFlight > 0 then s.inFlight - 1 else s.inFlight)
  }

  // ----- the transition relation -----

  predicate EventEnabled(s: State, e: Event) {
    match e
    case Announce(a) => a in s.spawning && a < |s.agents|
    case Enqueue(a) => a in s.spawning && a < |s.agents|
    case Kill(a) => a < |s.agents|
    case Unqueue(a) => a < |s.agents| && StatusOf(s, a).Zombie?
    case _ => true
  }

  function ApplyEvent(s: State, e: Event): State
    requires EventEnabled(s, e)
  {
    match e
    case Register(k, q, i, p) => Registered(s, k, q, i, p)
    case Announce(a) => WithAgent(s, a, Moved(s.agents[a], Waiting))
    case Enqueue(a) => Put(s, a).(spawning := s.spawning - {a})
    case Kill(a) => WithAgent(s, a, Moved(s.agents[a], Zombie))
    case Unqueue(a) => s.(queue := Remove(s.queue, a))
    case DropMailbox(a) => s.(mail := s.mail - {a})
    case TopUp(n) => s.(quota := Topup(s.quota, n))
    case Stop => s.(stop := true)
  }

  /** The program counter, and what else must hold, for a worker that holds an agent. */
  predicate CanDo(s: State, p: Worker, m: Act) {
    match m
    case Inspect => p.Popped?
    case Receive(_) => p.Receiving?
    case Park(_) => p.Parking? || p.Failing?
    case Requeue => p.Requeueing?
    case Loop => p.Looping?
    case Acquire => p.Acquiring?
    case MarkBlocked => p.Stalled?
    case Wake(got) => p.Blocking? && got == CanTake(s.quota, 1)
    case Resume => p.Woken?
    case GiveBack => p.Returning?
    case Enter(_) => p.Entering?
    case Mark => p.Marking?
    case Summarise => p.Assembling? && CanTake(s.quota, 1)
    case Summarised => p.Summarising?
    case SummaryRaised(_) => p.Summarising?
    case ContextRaised(_) => p.Assembling?
    case Call => p.Assembling?
    case CallReturned => p.Calling?
    case CallRaised(_) => p.Calling?
    case Conclude(reply, _) => p.Charged? && !reply.Raised?
    case StepCrashed => p.Charged?
    case Close => p.Closing?
    case Settle => p.Settling?
    case Check => p.Checking?
    case Pipe => p.Piping?
    case Send => p.Sending?
    case Yield => p.Yielding?
    case _ => false
  }

  function Perform(c: Config, s: State, w: nat, m: Act): State
    requires Holds(s, w) && CanDo(s, s.workers[w], m)
  {
    match m
    case Inspect => DoInspect(c, s, w)
    case Receive(still) => DoReceive(c, s, w, still)
    case Park(expired) => DoPark(s, w, expired)
    case Requeue => DoRequeue(s, w)
    case Loop => DoLoop(s, w)
    case Acquire => DoAcquire(s, w)
    case MarkBlocked => DoMarkBlocked(s, w)
    case Wake(got) => DoWake(s, w, got)
    case Resume => DoResume(s, w)
    case GiveBack => DoGiveBack(s, w)
    case Enter(gateOpen) => DoEnter(s, w, gateOpen)
    case Mark => DoMark(s, w)
    case Summarise => DoSummarise(s, w)
    case Summarised => DoSummarised(s, w)
    case SummaryRaised(timeout) => DoRaise(s, w, Failure(timeout)).(quota := Refund(s.quota, 1))
    case ContextRaised(timeout) => DoRaise(s, w, Failure(timeout))
    case Call => DoCall(s, w)
    case CallReturned => DoCallReturned(s, w)
    case CallRaised(timeout) => DoRaise(s, w, Failure(timeout))
    case Conclude(reply, sandboxOk) => DoConclude(s, w, reply, sandboxOk)
    case StepCrashed => DoRaise(s, w, Error)
    case Close => DoClose(s, w)
    case Settle => DoSettle(s, w)
    case Check => DoCheck(s, w)
    case Pipe => DoPipe(c, s, w)
    case Send => DoSend(c, s, w)
    case Yield => DoYield(s, w)
  }

  predicate Enabled(s: State, l: Label) {
    match l
    case Outside(e) => EventEnabled(s, e)
    case By(w, m) =>
      if m.Pop? then w < |s.workers| && s.workers[w].Idle? && m.i < |s.queue|
      else if m.TaskDone? then w < |s.workers| && s.workers[w].Finishing?
      else Holds(s, w) && CanDo(s, s.workers[w], m)
  }

  function Apply(c: Config, s: State, l: Label): State
    requires Enabled(s, l)
  {
    match l
    case Outside(e) => ApplyEvent(s, e)
    case By(w, m) =>
      if m.Pop? then DoPop(s, w, m.i)
      else if m.TaskDone? then DoTaskDone(s, w)
      else Perform(c, s, w, m)
  }

  /** The labels `ls` lead from s to t. */
  predicate Runs(c: Config, s: State, ls: seq<Label>, t: State)
    decreases |ls|
  {
    if ls == [] then s == t
    else Enabled(s, ls[0]) && Runs(c, Apply(c, s, ls[0]), ls[1..], t)
  }

  ghost predicate Reachable(c: Config, s: State) {
    exists init, ls :: Initial(init) && Runs(c, init, ls, s)
  }
}
