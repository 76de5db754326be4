/**
 What the steps of the thread pool come to, besides keeping it safe: how long a
 quantum lasts, where results go, and which status each transition asks for
 (gcos/kernel/worker_pool.py).
 */
module DispatchEffects {
  import opened Basics
  import opened Agents
  import opened Dispatch
  import opened DispatchInvariant
  import opened DispatchProofs
  import opened DispatchTheorems

  // ----- the length of a quantum -----

  /** Steps of agents that worker w has begun. */
  function EntriesBy(w: nat, ls: seq<Label>): nat {
    if ls == [] then 0 else (if EntersAt(w, ls[0]) then 1 else 0) + EntriesBy(w, ls[1..])
  }

  predicate EntersAt(w: nat, l: Label) {
    l.By? && l.w == w && l.act.Enter?
  }

  /** From the head of the quantum loop to the end of a step. */
  predicate InLoop(p: Worker) {
    || p.Looping? || p.Acquiring? || p.Stalled? || p.Blocking? || p.Woken? || p.Entering? || p.Checking?
    || MidStep(p)
  }

  predicate MidStep(p: Worker) {
    p.Marking? || p.Assembling? || p.Summarising? || p.Calling? || p.Charged? || p.Closing? || p.Settling?
  }

  /** Steps that the loop still allows. */
  function StepsLeft(p: Worker): nat
    requires InLoop(p)
  {
    p.left + if p.Acquiring? || p.Stalled? || p.Blocking? || p.Woken? || p.Entering? then 1 else 0
  }

  predicate AfterLoop(p: Worker) {
    p.Piping? || p.Sending? || p.Yielding?
  }

  /** Worker w has begun n steps in its present dispatch of an agent. */
  predicate Phase(c: Config, s: State, w: nat, n: nat) {
    && Holds(s, w) && n <= StepLimit(c)
    && var p := s.workers[w];
    && (p.Popped? || p.Receiving? ==> n == 0)
    && (InLoop(p) ==> n + StepsLeft(p) == StepLimit(c))
    && (AfterLoop(p) && p.keep ==> n == StepLimit(c) || s.stop || IsTerminal(StatusOf(s, p.a)))
  }

  /** The worker is done with this agent: it has put it back or dropped it. */
  predicate LetGo(s: State, w: nat) {
    w < |s.workers| && (s.workers[w].Finishing? || s.workers[w].Idle?)
  }

  /** Where worker w's act leads: it lets go of its agent, or is in the phase that n steps make. */
  predicate NextPhase(c: Config, t: State, w: nat, n: nat) {
    if LetGo(t, w) then t.workers[w].Finishing? else Phase(c, t, w, n)
  }

  lemma {:induction false} AdmissionPhase(c: Config, s: State, w: nat, m: Act, n: nat)
    requires Phase(c, s, w, n) && CanDo(s, s.workers[w], m)
    requires m.Inspect? || m.Receive? || m.Park? || m.Requeue? || m.Resume?
    ensures NextPhase(c, Perform(c, s, w, m), w, n)
  {
  }

  lemma {:induction false} LoopPhase(c: Config, s: State, w: nat, m: Act, n: nat)
    requires Phase(c, s, w, n) && CanDo(s, s.workers[w], m)
    requires m.Loop? || m.Acquire? || m.MarkBlocked? || m.Wake? || m.GiveBack? || m.Check?
    ensures NextPhase(c, Perform(c, s, w, m), w, n)
  {
  }

  lemma {:induction false} EnterPhase(c: Config, s: State, w: nat, m: Act, n: nat)
    requires Phase(c, s, w, n) && CanDo(s, s.workers[w], m) && m.Enter?
    ensures NextPhase(c, Perform(c, s, w, m), w, n + 1)
  {
  }

  lemma {:induction false} ContextPhase(c: Config, s: State, w: nat, m: Act, n: nat)
    requires Phase(c, s, w, n) && CanDo(s, s.workers[w], m)
    requires m.Mark? || m.Summarise? || m.Summarised? || m.SummaryRaised? || m.ContextRaised? || m.Call?
    ensures NextPhase(c, Perform(c, s, w, m), w, n)
  {
  }

  lemma {:induction false} CallPhase(c: Config, s: State, w: nat, m: Act, n: nat)
    requires Phase(c, s, w, n) && CanDo(s, s.workers[w], m)
    requires m.CallReturned? || m.CallRaised? || m.Conclude? || m.StepCrashed?
    ensures NextPhase(c, Perform(c, s, w, m), w, n)
  {
  }

  lemma {:induction false} ClosingPhase(c: Config, s: State, w: nat, m: Act, n: nat)
    requires Phase(c, s, w, n) && CanDo(s, s.workers[w], m)
    requires m.Close? || m.Settle?
    ensures NextPhase(c, Perform(c, s, w, m), w, n)
  {
  }

  lemma {:induction false} ExitPhase(c: Config, s: State, w: nat, m: Act, n: nat)
    requires Phase(c, s, w, n) && CanDo(s, s.workers[w], m)
    requires m.Pipe? || m.Send? || m.Yield?
    ensures NextPhase(c, Perform(c, s, w, m), w, n)
  {
  }

  lemma {:induction false} OtherPhase(c: Config, s: State, l: Label, w: nat, n: nat)
    requires Inv(s) && Phase(c, s, w, n) && Enabled(s, l) && !(l.By? && l.w == w)
    ensures Phase(c, Apply(c, s, l), w, n)
  {
    var a := Owner(s.workers[w]);
    if IsTerminal(StatusOf(s, a)) {
      StepAfterFinish(c, s, l, a);
    }
    if l.By? && !l.act.Pop? && !l.act.TaskDone? {
      PerformTouches(c, s, l.w, l.act);
    }
  }

  lemma {:induction false} OwnPhase(c: Config, s: State, w: nat, m: Act, n: nat)
    requires Phase(c, s, w, n) && CanDo(s, s.workers[w], m)
    ensures NextPhase(c, Perform(c, s, w, m), w, n + if m.Enter? then 1 else 0)
  {
    match m
    case Inspect => AdmissionPhase(c, s, w, m, n);
    case Receive(_) => AdmissionPhase(c, s, w, m, n);
    case Park(_) => AdmissionPhase(c, s, w, m, n);
    case Requeue => AdmissionPhase(c, s, w, m, n);
    case Resume => AdmissionPhase(c, s, w, m, n);
    case Loop => LoopPhase(c, s, w, m, n);
    case Acquire => LoopPhase(c, s, w, m, n);
    case MarkBlocked => LoopPhase(c, s, w, m, n);
    case Wake(_) => LoopPhase(c, s, w, m, n);
    case GiveBack => LoopPhase(c, s, w, m, n);
    case Check => LoopPhase(c, s, w, m, n);
    case Enter(_) => EnterPhase(c, s, w, m, n);
    case Mark => ContextPhase(c, s, w, m, n);
    case Summarise => ContextPhase(c, s, w, m, n);
    case Summarised => ContextPhase(c, s, w, m, n);
    case SummaryRaised(_) => ContextPhase(c, s, w, m, n);
    case ContextRaised(_) => ContextPhase(c, s, w, m, n);
    case Call => ContextPhase(c, s, w, m, n);
    case CallReturned => CallPhase(c, s, w, m, n);
    case CallRaised(_) => CallPhase(c, s, w, m, n);
    case Conclude(_, _) => CallPhase(c, s, w, m, n);
    case StepCrashed => CallPhase(c, s, w, m, n);
    case Close => ClosingPhase(c, s, w, m, n);
    case Settle => ClosingPhase(c, s, w, m, n);
    case Pipe => ExitPhase(c, s, w, m, n);
    case Send => ExitPhase(c, s, w, m, n);
    case Yield => ExitPhase(c, s, w, m, n);
  }

  /** One step of anybody. */
  lemma {:induction false} AnyPhase(c: Config, s: State, l: Label, w: nat, n: nat)
    requires Inv(s) && Phase(c, s, w, n) && Enabled(s, l) && l != By(w, TaskDone)
    ensures Inv(Apply(c, s, l)) && NextPhase(c, Apply(c, s, l), w, n + if EntersAt(w, l) then 1 else 0)
  {
    StepKeepsInv(c, s, l);
    if l.By? && l.w == w {
      OwnPhase(c, s, w, l.act, n);
    } else {
      OtherPhase(c, s, l, w, n);
    }
  }

  /** Until task_done a worker that let its agent go does nothing. */
  lemma {:induction false} OthersLeaveWorker(c: Config, s: State, l: Label, w: nat)
    requires Inv(s) && w < |s.workers| && s.workers[w].Finishing? && Enabled(s, l) && l != By(w, TaskDone)
    ensures var t := Apply(c, s, l); w < |t.workers| && t.workers[w].Finishing? && !EntersAt(w, l)
  {
    if l.By? && l.w != w && !l.act.Pop? && !l.act.TaskDone? {
      PerformTouches(c, s, l.w, l.act);
    }
  }

  lemma {:induction false} FinishedWorkerStays(c: Config, s: State, ls: seq<Label>, t: State, w: nat)
    requires Inv(s) && w < |s.workers| && s.workers[w].Finishing? && Runs(c, s, ls, t) && By(w, TaskDone) !in ls
    ensures w < |t.workers| && t.workers[w].Finishing? && EntriesBy(w, ls) == 0
    decreases |ls|
  {
    if ls != [] {
      assert ls[0] in ls;
      OthersLeaveWorker(c, s, ls[0], w);
      StepKeepsInv(c, s, ls[0]);
      FinishedWorkerStays(c, Apply(c, s, ls[0]), ls[1..], t, w);
    }
  }

  lemma {:induction false} RunPhase(c: Config, s: State, ls: seq<Label>, t: State, w: nat, n: nat)
    requires Inv(s) && NextPhase(c, s, w, n) && n <= StepLimit(c) && Runs(c, s, ls, t) && By(w, TaskDone) !in ls
    ensures NextPhase(c, t, w, n + EntriesBy(w, ls)) && n + EntriesBy(w, ls) <= StepLimit(c)
    decreases |ls|
  {
    if LetGo(s, w) {
      FinishedWorkerStays(c, s, ls, t, w);
    } else if ls != [] {
      assert ls[0] in ls;
      AnyPhase(c, s, ls[0], w, n);
      if EntersAt(w, ls[0]) {
        EntriesFit(c, s, ls[0], w, n);
      }
      RunPhase(c, Apply(c, s, ls[0]), ls[1..], t, w, n + if EntersAt(w, ls[0]) then 1 else 0);
    }
  }

  lemma {:induction false} EntriesFit(c: Config, s: State, l: Label, w: nat, n: nat)
    requires Phase(c, s, w, n) && Enabled(s, l) && EntersAt(w, l)
    ensures n < StepLimit(c)
  {
  }

  /** Worker w, the pool running, is about to put an unfinished agent back that could go on. */
  predicate Preempting(s: State, w: nat) {
    && w < |s.workers| && s.workers[w].Yielding? && s.workers[w].keep && !s.stop
    && s.workers[w].a < |s.agents| && !IsTerminal(StatusOf(s, s.workers[w].a))
  }

  /**
   A dispatch makes at most the quantum's steps: k of them under a quantum of k,
   at least one, and 10000 without. An agent that is preempted unfinished, the
   pool running, has had exactly that many.
   */
  lemma {:induction false} PreemptedExactlyAfterTheQuantum(c: Config, s: State, ls: seq<Label>, t: State, w: nat)
    requires Reachable(c, s) && w < |s.workers| && s.workers[w].Popped? && Runs(c, s, ls, t)
    requires By(w, TaskDone) !in ls
    ensures var k := if c.quantum.None? then 10_000 else if c.quantum.value < 1 then 1 else c.quantum.value;
      && EntriesBy(w, ls) <= k
      && (Preempting(t, w) ==> EntriesBy(w, ls) == k)
  {
    ReachableInv(c, s);
    assert Owner(s.workers[w]) == s.workers[w].a;
    RunPhase(c, s, ls, t, w, 0);
  }

  // ----- where results go -----

  /** After the loop a worker forwards exactly the result of a DONE agent that has a consumer. */
  lemma {:induction false} ForwardsExactlyWhen(c: Config, s: State, w: nat)
    requires Enabled(s, By(w, Pipe))
    ensures var a, p := s.workers[w].a, Apply(c, s, By(w, Pipe)).workers[w];
      p == if StatusOf(s, a) == Done && s.agents[a].pipeTo != None && c.hasBus then Sending(a, s.workers[w].keep)
           else Yielding(a, s.workers[w].keep)
  {
  }

  /** A forwarded result goes behind what its consumer's mailbox holds, if there is room, and nowhere else. */
  lemma {:induction false} ResultsReachTheirConsumer(c: Config, s: State, w: nat, b: Pid)
    requires Enabled(s, By(w, Send))
    ensures var a, t := s.workers[w].a, Apply(c, s, By(w, Send));
      && t.piped == s.piped + {a}
      && Mailbox(t, b) == Mailbox(s, b)
           + if s.agents[a].pipeTo == Some(b) && (c.mailboxCap <= 0 || |Mailbox(s, b)| < c.mailboxCap) then [a]
             else []
  {
  }

  /** A consumer takes the oldest message of its own mailbox and starts its quantum; without one it parks. */
  lemma {:induction false} ConsumersTakeTheirOldest(c: Config, s: State, w: nat, still: bool, b: Pid)
    requires Enabled(s, By(w, Receive(still)))
    ensures var a, t := s.workers[w].a, Apply(c, s, By(w, Receive(still)));
      if Mailbox(s, a) == [] then t == At(s, w, Parking(a))
      else
        && Mailbox(t, b) == (if b == a then Mailbox(s, b)[1..] else Mailbox(s, b))
        && t.workers[w] == Looping(a, StepLimit(c), false) && t.agents[a].needsInput == still
        && t.agents[a].block == s.agents[a].block
  {
  }

  // ----- which status each transition asks for -----

  /** The status that a worker's act asks for, if it asks for one. */
  function Asked(p: Worker, m: Act): Option<Status> {
    match m
    case Park(expired) => Some(if expired || p.Failing? then Error else Waiting)
    case Requeue => Some(Ready)
    case MarkBlocked => Some(Blocked)
    case Mark => Some(Running)
    case Close => if p.Closing? then Some(p.to) else None
    case _ => None
  }

  predicate MovesAsAsked(s: State, w: nat, m: Act, t: State)
    requires Holds(s, w)
  {
    && |t.agents| == |s.agents|
    && var a := Owner(s.workers[w]);
    var b, asked := StatusOf(s, a), Asked(s.workers[w], m);
    StatusOf(t, a) == if asked.None? || b in {Done, Timeout, Error, Zombie} then b else asked.value
  }

  lemma {:induction false} AdmissionMovesAsAsked(c: Config, s: State, w: nat, m: Act)
    requires Holds(s, w) && CanDo(s, s.workers[w], m)
    requires m.Inspect? || m.Receive? || m.Park? || m.Requeue? || m.Resume?
    ensures MovesAsAsked(s, w, m, Perform(c, s, w, m))
  {
  }

  lemma {:induction false} LoopMovesAsAsked(c: Config, s: State, w: nat, m: Act)
    requires Holds(s, w) && CanDo(s, s.workers[w], m)
    requires m.Loop? || m.Acquire? || m.MarkBlocked? || m.Wake? || m.GiveBack? || m.Check?
    ensures MovesAsAsked(s, w, m, Perform(c, s, w, m))
  {
  }

  lemma {:induction false} EnterMovesAsAsked(c: Config, s: State, w: nat, m: Act)
    requires Holds(s, w) && CanDo(s, s.workers[w], m)
    requires m.Enter? || m.Mark? || m.ContextRaised? || m.Call?
    ensures MovesAsAsked(s, w, m, Perform(c, s, w, m))
  {
  }

  lemma {:induction false} SummaryMovesAsAsked(c: Config, s: State, w: nat, m: Act)
    requires Holds(s, w) && CanDo(s, s.workers[w], m)
    requires m.Summarise? || m.Summarised? || m.SummaryRaised?
    ensures MovesAsAsked(s, w, m, Perform(c, s, w, m))
  {
  }

  lemma {:induction false} CallMovesAsAsked(c: Config, s: State, w: nat, m: Act)
    requires Holds(s, w) && CanDo(s, s.workers[w], m)
    requires m.CallReturned? || m.CallRaised? || m.Conclude? || m.StepCrashed?
    ensures MovesAsAsked(s, w, m, Perform(c, s, w, m))
  {
  }

  lemma {:induction false} ClosingMovesAsAsked(c: Config, s: State, w: nat, m: Act)
    requires Holds(s, w) && CanDo(s, s.workers[w], m)
    requires m.Close? || m.Settle?
    ensures MovesAsAsked(s, w, m, Perform(c, s, w, m))
  {
  }

  lemma {:induction false} ExitMovesAsAsked(c: Config, s: State, w: nat, m: Act)
    requires Holds(s, w) && CanDo(s, s.workers[w], m)
    requires m.Pipe? || m.Send? || m.Yield?
    ensures MovesAsAsked(s, w, m, Perform(c, s, w, m))
  {
  }

  /** A worker's act leaves its agent's status alone or moves it as asked, and finished agents never move. */
  lemma {:induction false} StatusMovesAsAsked(c: Config, s: State, w: nat, m: Act)
    requires Holds(s, w) && CanDo(s, s.workers[w], m)
    ensures MovesAsAsked(s, w, m, Perform(c, s, w, m))
  {
    if m.Inspect? || m.Receive? || m.Park? || m.Requeue? || m.Resume? {
      AdmissionMovesAsAsked(c, s, w, m);
    } else if m.Loop? || m.Acquire? || m.MarkBlocked? || m.Wake? || m.GiveBack? || m.Check? {
      LoopMovesAsAsked(c, s, w, m);
    } else if m.Enter? || m.Mark? || m.ContextRaised? || m.Call? {
      EnterMovesAsAsked(c, s, w, m);
    } else if m.Summarise? || m.Summarised? || m.SummaryRaised? {
      SummaryMovesAsAsked(c, s, w, m);
    } else if m.CallReturned? || m.CallRaised? || m.Conclude? || m.StepCrashed? {
      CallMovesAsAsked(c, s, w, m);
    } else if m.Close? || m.Settle? {
      ClosingMovesAsAsked(c, s, w, m);
    } else {
      ExitMovesAsAsked(c, s, w, m);
    }
  }

  /** A requeued agent is last in the queue, unless it is finished, and the worker lets it go. */
  lemma {:induction false} RequeuePutsLast(c: Config, s: State, w: nat)
    requires Enabled(s, By(w, Requeue))
    ensures var a, t := s.workers[w].a, Apply(c, s, By(w, Requeue));
      && t.workers[w] == Finishing
      && t.queue == s.queue + if StatusOf(s, a) in {Done, Timeout, Error, Zombie} then [] else [a]
  {
  }
}
