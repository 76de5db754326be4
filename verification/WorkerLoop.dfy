/**
 One worker's dispatch as it updates the control block, the shared budget and
 the ready queue (`_dispatch` and `_run_one_step` of gcos/kernel/worker_pool.py).
 What the rest of the system does meanwhile is in a `Turn`: the units others hand
 back while this worker waits, the stop flag, and what the step meets.
 */
module WorkerLoop {
  import opened Basics
  import opened Agents
  import opened Steps
  import opened StepRunner
  import opened Quotas
  import opened ReadyQueues
  import opened StepRefinement
  import opened MessageBuses

  /** What others do to the budget. */
  datatype Change = HandedBack(n: nat) | ToppedUp(n: nat) | TakenBy(n: nat)

  datatype Turn = Turn(stopBefore: bool, meanwhile: seq<Change>, stopAfterWait: bool, world: World)

  datatype Ran = Ran(keep: bool) | Reparked

  /** One step of an agent, a raised exception turned into ERROR. */
  method Step(pcb: ControlBlock, world: World, now: real) returns (keep: bool)
    requires pcb.Valid()
    modifies pcb
    ensures pcb.Valid()
    ensures pcb.View() == Handled(RunStep(old(pcb.View()), world))
    ensures keep == (RunStep(old(pcb.View()), world).1 == Returned(true))
    ensures var (b, end) := RunStep(old(pcb.View()), world);
      pcb.View() == b.(status := if end.Crashed? && !IsTerminal(b.status) then Error else b.status)
  {
    var out := RunStepOn(pcb, world, now);
    if out.Crashed? {
      var _, _ := pcb.Transition(Error, now);
      return false;
    }
    keep := out.keep;
  }

  function AfterChange(acc: Account, ch: Change): Account {
    match ch
    case HandedBack(n) => Refund(acc, n)
    case ToppedUp(n) => Topup(acc, n)
    case TakenBy(n) => if CanTake(acc, n) then Take(acc, n) else acc
  }

  function AfterChanges(acc: Account, changes: seq<Change>): Account
    decreases |changes|
  {
    if changes == [] then acc else AfterChanges(AfterChange(acc, changes[0]), changes[1..])
  }

  /** What others do while this worker waits, which it does only on a dry budget. */
  function Others(acc: Account, changes: seq<Change>): int {
    if acc.remaining >= 1 then 0 else AfterChanges(acc, changes).Used() - acc.Used()
  }

  /** Others hand units back, top the budget up, and take what is there. */
  method Meanwhile(quota: Quota, changes: seq<Change>)
    requires 0 <= quota.remaining <= quota.total
    modifies quota
    ensures 0 <= quota.remaining <= quota.total
    ensures quota.Value() == AfterChanges(old(quota.Value()), changes)
  {
    for i := 0 to |changes|
      invariant 0 <= quota.remaining <= quota.total
      invariant AfterChanges(quota.Value(), changes[i..]) == AfterChanges(old(quota.Value()), changes)
    {
      assert changes[i..][0] == changes[i] && changes[i..][1..] == changes[i + 1..];
      match changes[i] {
        case HandedBack(n) => quota.GiveBack(n);
        case ToppedUp(n) => quota.Raise(n);
        case TakenBy(n) => var _ := quota.Acquire(n);
      }
    }
  }

  /**
   Takes a unit, waiting if there is none. `others` is what others took, less
   what they handed back, during the wait. Without a unit, or when stopped
   meanwhile, none is held.
   */
  method TakeUnit(pcb: ControlBlock, quota: Quota, turn: Turn, now: real) returns (got: bool, ghost others: int)
    requires pcb.Valid() && 0 <= quota.remaining <= quota.total
    modifies pcb`status, pcb`startedAt, pcb`finishedAt, quota
    ensures pcb.Valid() && 0 <= quota.remaining <= quota.total
    ensures quota.Value().Used() == old(quota.Value().Used()) + others + if got then 1 else 0
    ensures got ==> quota.remaining < quota.total
    ensures others == Others(old(quota.Value()), turn.meanwhile) && got == Gets(old(quota.Value()), turn)
    ensures old(quota.remaining) >= 1 ==> got
    ensures old(quota.remaining) < 1 ==>
      (got <==> !turn.stopAfterWait && AfterChanges(old(quota.Value()), turn.meanwhile).remaining >= 1)
    ensures var acc := WhenTaken(old(quota.Value()), turn); quota.Value() == if got then Take(acc, 1) else acc
    ensures pcb.status == if old(quota.remaining) >= 1 then old(pcb.status) else Move(old(pcb.status), Blocked)
  {
    others := 0;
    got := quota.Acquire(1);
    if !got {
      var _, _ := pcb.Transition(Blocked, now);
      Meanwhile(quota, turn.meanwhile);
      others := quota.Value().Used() - old(quota.Value().Used());
      got := quota.Acquire(1);
      if turn.stopAfterWait && got {
        quota.GiveBack(1);
        got := false;
      }
    }
  }

  /** The block a step starts from: blocked on the way if the budget was dry. */
  function AfterWait(b: Block, remaining: int): Block {
    if remaining >= 1 then b else With(b, Blocked)
  }

  /** The budget when the unit is to be taken: as it is, or as others have left it after the wait. */
  function WhenTaken(acc: Account, turn: Turn): Account {
    if acc.remaining >= 1 then acc else AfterChanges(acc, turn.meanwhile)
  }

  /** Whether a unit is got: at once, or after a wait that brought one and was not cut short. */
  predicate Gets(acc: Account, turn: Turn) {
    acc.remaining >= 1 || (CanTake(AfterChanges(acc, turn.meanwhile), 1) && !turn.stopAfterWait)
  }

  /** One step of an agent, with the unit it needs: the block, the budget, and what became of it. */
  function OneStep(b: Block, acc: Account, turn: Turn): (Block, Account, Ran) {
    var b1, acc1 := AfterWait(b, acc.remaining), WhenTaken(acc, turn);
    if !Gets(acc, turn) then (With(b1, Ready), acc1, Reparked)
    else
      var out := RunStep(b1, turn.world);
      (Handled(out), if out.0.calls == b.calls then acc1 else Take(acc1, 1), Ran(out.1 == Returned(true)))
  }

  /**
   Over one step the budget in use grows by exactly the calls that the step
   made. If the step did not run, the agent is back in the queue unless finished.
   */
  method RunOneStep(pcb: ControlBlock, quota: Quota, queue: ReadyQueue, turn: Turn, now: real)
      returns (r: Ran, ghost others: int)
    requires pcb.Valid() && 0 <= quota.remaining <= quota.total
    modifies pcb, quota, queue`q
    ensures pcb.Valid() && 0 <= quota.remaining <= quota.total
    ensures (pcb.View(), quota.Value(), r) == OneStep(old(pcb.View()), old(quota.Value()), turn)
    ensures others == Others(old(quota.Value()), turn.meanwhile)
    ensures quota.Value().Used() == old(quota.Value().Used()) + others + (pcb.calls - old(pcb.calls))
    ensures old(pcb.calls) <= pcb.calls <= old(pcb.calls) + 1
    ensures r.Ran? && !r.keep ==> IsTerminal(pcb.status)
    ensures queue.q == if r.Reparked? && !IsTerminal(pcb.status) then old(queue.q) + [pcb] else old(queue.q)
  {
    var got: bool;
    got, others := TakeUnit(pcb, quota, turn, now);
    if !got {
      var _ := queue.Put(pcb, now);
      return Reparked, others;
    }
    var before := pcb.calls;
    EveryStepMeetsTheContract(pcb.View(), turn.world);
    var keep := Step(pcb, turn.world, now);
    if pcb.calls == before {
      quota.GiveBack(1);
    }
    return Ran(keep), others;
  }

  // ----- the quantum -----

  /** The steps of one dispatch when the budget suffices and nobody stops the pool. */
  function Quantum(b: Block, ws: seq<World>, keep: bool): (Block, bool)
    decreases |ws|
  {
    if ws == [] then (b, keep)
    else
      var out := RunStep(b, ws[0]);
      var b' := Handled(out);
      if IsTerminal(b'.status) || out.1 != Returned(true) then (b', out.1 == Returned(true))
      else Quantum(b', ws[1..], true)
  }

  /** How many steps that is, each of which needs a unit to start. */
  function StepsOf(b: Block, ws: seq<World>): (n: nat)
    ensures n <= |ws|
    decreases |ws|
  {
    if ws == [] then 0
    else
      var out := RunStep(b, ws[0]);
      var b' := Handled(out);
      if IsTerminal(b'.status) || out.1 != Returned(true) then 1 else 1 + StepsOf(b', ws[1..])
  }

  /** The budget covers the dispatch, and nobody stops the pool meanwhile. */
  predicate Ample(b: Block, turns: seq<Turn>, remaining: int) {
    StepsOf(b, Worlds(turns)) <= remaining && Undisturbed(turns)
  }

  function Yielded(r: (Block, bool)): Block {
    if r.1 then With(r.0, Ready) else r.0
  }

  /** The call that finishes an agent of this kind. */
  predicate Answers(k: Kind, w: World) {
    && w.contextRaised.None? && !w.reply.Raised? && !w.killed && !w.afterRaised
    && (k.React? ==> w.reply.Final?)
    && (k.Coder? ==> w.gateOpen && w.sandboxOk)
  }

  /** An agent that has exactly `burst` calls to go and the means to make them; one if it is single-shot. */
  predicate HasBurst(b: Block, burst: nat) {
    && burst >= 1 && burst <= b.quota && !IsTerminal(b.status)
    && if b.kind.React? then b.step + burst <= b.kind.maxToolCalls else burst == 1
  }

  /**
   One quantum of |ws| steps serves min(burst, |ws|) calls of a burst: it
   finishes the agent exactly when the burst fits, and otherwise leaves an agent
   that has the rest of its burst to go.
   */
  lemma {:induction false} QuantumServesBurst(b: Block, burst: nat, ws: seq<World>, keep: bool)
    requires HasBurst(b, burst) && ws != []
    requires forall i :: 0 <= i < |ws| && i < burst - 1 ==> Continues(ws[i])
    requires burst <= |ws| ==> Answers(b.kind, ws[burst - 1])
    ensures var (r, more) := Quantum(b, ws, keep);
      && r.calls == b.calls + Min(burst, |ws|) && StepsOf(b, ws) == Min(burst, |ws|)
      && (if burst <= |ws| then r.status.Done? && !more else more && HasBurst(r, burst - |ws|))
    decreases |ws|
  {
    var out := RunStep(b, ws[0]);
    if burst > 1 {
      assert Continues(ws[0]);
      var rest := ws[1..];
      if rest != [] {
        assert forall i :: 0 <= i < |rest| ==> rest[i] == ws[i + 1];
        QuantumServesBurst(Handled(out), burst - 1, rest, true);
      }
    } else {
      assert Answers(b.kind, ws[0]);
    }
  }

  function Worlds(turns: seq<Turn>): seq<World> {
    seq(|turns|, i requires 0 <= i < |turns| => turns[i].world)
  }

  predicate Undisturbed(turns: seq<Turn>) {
    forall i :: 0 <= i < |turns| ==> !turns[i].stopBefore
  }

  // ----- the loop, whatever the budget -----

  /** Where the loop leaves the agent and the budget; `reparked` says that a unit was not to be had. */
  datatype Ride = Ride(b: Block, acc: Account, keep: bool, reparked: bool)

  function Course(b: Block, acc: Account, turns: seq<Turn>, keep: bool): Ride
    decreases |turns|
  {
    if turns == [] || turns[0].stopBefore then Ride(b, acc, keep, false)
    else
      var (b', acc', r) := OneStep(b, acc, turns[0]);
      if r.Reparked? then Ride(b', acc', keep, true)
      else if IsTerminal(b'.status) || !r.keep then Ride(b', acc', r.keep, false)
      else Course(b', acc', turns[1..], true)
  }

  lemma {:induction false} OneStepFacts(b: Block, acc: Account, turn: Turn)
    ensures var (b', acc', r) := OneStep(b, acc, turn);
      && b.calls <= b'.calls <= b.calls + 1
      && acc'.Used() == acc.Used() + Others(acc, turn.meanwhile) + (b'.calls - b.calls)
      && (r.Reparked? ==> b'.calls == b.calls && (IsTerminal(b'.status) || b'.status.Ready?))
      && (r.Ran? && r.keep ==> b'.calls == b.calls + 1)
      && (r.Ran? && !r.keep ==> IsTerminal(b'.status))
  {
    EveryStepMeetsTheContract(AfterWait(b, acc.remaining), turn.world);
  }

  /** A wait in vain: the budget was dry and what others did brought no unit, or the pool was stopped meanwhile. */
  ghost predicate WaitedInVain(turn: Turn, acc: Account) {
    exists before: Account ::
      && before.remaining < 1 && acc == AfterChanges(before, turn.meanwhile)
      && (acc.remaining < 1 || turn.stopAfterWait)
  }

  /**
   The loop gives an unfinished agent up only at the end of its quantum, at the
   stop flag, or after a wait in vain; until then every step was a call.
   */
  lemma {:induction false} CourseEndsOnlyWhen(b: Block, acc: Account, turns: seq<Turn>, keep: bool)
    ensures var r := Course(b, acc, turns, keep);
      var k := r.b.calls - b.calls;
      && 0 <= k <= |turns|
      && (!IsTerminal(r.b.status) ==>
            if r.reparked then k < |turns| && !turns[k].stopBefore && WaitedInVain(turns[k], r.acc) && r.b.status.Ready?
            else (k == |turns| || turns[k].stopBefore) && r.keep == (keep || k > 0))
    decreases |turns|
  {
    if turns != [] && !turns[0].stopBefore {
      var (b', acc', r) := OneStep(b, acc, turns[0]);
      OneStepFacts(b, acc, turns[0]);
      if r.Reparked? {
        assert acc.remaining < 1 && !Gets(acc, turns[0]);
      } else if !IsTerminal(b'.status) && r.keep {
        CourseEndsOnlyWhen(b', acc', turns[1..], true);
      }
    }
  }

  /** With a unit there, a step of the loop is a step of the quantum. */
  lemma {:induction false} OneStepWithUnit(b: Block, acc: Account, turn: Turn)
    requires acc.remaining >= 1
    ensures var (b', acc', r) := OneStep(b, acc, turn);
      var out := RunStep(b, turn.world);
      && b' == Handled(out) && r == Ran(out.1 == Returned(true))
      && acc' == Take(acc, b'.calls - b.calls) && b.calls <= b'.calls <= b.calls + 1
      && (r.keep ==> b'.calls == b.calls + 1)
  {
    EveryStepMeetsTheContract(b, turn.world);
  }

  /** With a budget that covers it, the loop is the quantum. */
  lemma {:induction false} CourseIsQuantum(b: Block, acc: Account, turns: seq<Turn>, keep: bool)
    requires Ample(b, turns, acc.remaining)
    ensures var r := Course(b, acc, turns, keep);
      && (r.b, r.keep) == Quantum(b, Worlds(turns), keep) && !r.reparked
      && r.acc == Take(acc, r.b.calls - b.calls)
    decreases |turns|
  {
    if turns != [] {
      var (b', acc', r) := OneStep(b, acc, turns[0]);
      assert Worlds(turns)[0] == turns[0].world && Worlds(turns)[1..] == Worlds(turns[1..]);
      assert !turns[0].stopBefore && acc.remaining >= 1;
      OneStepWithUnit(b, acc, turns[0]);
      if !IsTerminal(b'.status) && r.keep {
        assert forall i :: 0 <= i < |turns[1..]| ==> turns[1..][i] == turns[i + 1];
        CourseIsQuantum(b', acc', turns[1..], true);
      }
    }
  }

  /** The loop itself. It ends early when the agent stops or had to be reparked for lack of a unit. */
  method QuantumLoop(pcb: ControlBlock, quota: Quota, queue: ReadyQueue, turns: seq<Turn>, now: real)
      returns (keep: bool, reparked: bool, ghost others: int)
    requires pcb.Valid() && 0 <= quota.remaining <= quota.total && !IsTerminal(pcb.status)
    modifies pcb, quota, queue`q
    ensures pcb.Valid() && 0 <= quota.remaining <= quota.total
    ensures Ride(pcb.View(), quota.Value(), keep, reparked)
         == Course(old(pcb.View()), old(quota.Value()), turns, false)
    ensures quota.Value().Used() == old(quota.Value().Used()) + others + (pcb.calls - old(pcb.calls))
    ensures queue.q == old(queue.q) + if reparked && !IsTerminal(pcb.status) then [pcb] else []
  {
    keep, reparked, others := false, false, 0;
    var i := 0;
    ghost var goal := Course(pcb.View(), quota.Value(), turns, false);
    while i < |turns| && !turns[i].stopBefore
      invariant i <= |turns| && pcb.Valid() && 0 <= quota.remaining <= quota.total
      invariant quota.Value().Used() == old(quota.Value().Used()) + others + (pcb.calls - old(pcb.calls))
      invariant queue.q == old(queue.q) && !IsTerminal(pcb.status)
      invariant goal == Course(pcb.View(), quota.Value(), turns[i..], keep)
      decreases |turns| - i
    {
      assert turns[i..][0] == turns[i] && turns[i..][1..] == turns[i + 1..];
      var r;
      ghost var more;
      r, more := RunOneStep(pcb, quota, queue, turns[i], now);
      others := others + more;
      i := i + 1;
      if r.Reparked? {
        return keep, true, others;
      }
      keep := r.keep;
      if IsTerminal(pcb.status) || !keep {
        return;
      }
    }
  }

  /** After the loop: an agent that may go on yields to the tail of the queue. */
  function AfterLoop(r: Ride): Block {
    if r.keep && !r.reparked then With(r.b, Ready) else r.b
  }

  /**
   At most |turns| steps, then yield. Afterwards the agent is in the queue or
   finished, unless the pool was stopped before its first step; the budget in
   use has grown by exactly the calls made, at most one per step; and with an
   ample budget the agent's block is what the quantum prescribes.
   */
  method RunQuantum(pcb: ControlBlock, quota: Quota, queue: ReadyQueue, turns: seq<Turn>, now: real)
      returns (requeued: bool, ghost others: int)
    requires pcb.Valid() && 0 <= quota.remaining <= quota.total && turns != [] && !IsTerminal(pcb.status)
    modifies pcb, quota, queue`q
    ensures pcb.Valid() && 0 <= quota.remaining <= quota.total
    ensures var r := Course(old(pcb.View()), old(quota.Value()), turns, false);
      pcb.View() == AfterLoop(r) && quota.Value() == r.acc
    ensures quota.Value().Used() == old(quota.Value().Used()) + others + (pcb.calls - old(pcb.calls))
    ensures old(pcb.calls) <= pcb.calls <= old(pcb.calls) + |turns|
    ensures queue.q == old(queue.q) + if requeued then [pcb] else []
    ensures requeued ==> pcb.status.Ready?
    ensures !requeued ==> IsTerminal(pcb.status) || turns[0].stopBefore
    ensures Ample(old(pcb.View()), turns, old(quota.remaining)) ==>
      && others == 0 && quota.total == old(quota.total)
      && pcb.View() == Yielded(Quantum(old(pcb.View()), Worlds(turns), false))
  {
    ghost var b, acc := pcb.View(), quota.Value();
    CourseEndsOnlyWhen(b, acc, turns, false);
    if Ample(b, turns, acc.remaining) {
      CourseIsQuantum(b, acc, turns, false);
    }
    var keep, reparked;
    keep, reparked, others := QuantumLoop(pcb, quota, queue, turns, now);
    requeued := reparked && !IsTerminal(pcb.status);
    if !reparked && keep {
      requeued := queue.Put(pcb, now);
    }
  }

  // ----- the whole dispatch -----

  /** Since when an agent has been waiting: from now on if it was not. */
  function Since(waitingSince: Option<real>, now: real): real {
    if waitingSince.Some? then waitingSince.value else now
  }

  predicate Expired(waitingSince: Option<real>, deadline: real, now: real) {
    now - Since(waitingSince, now) >= deadline
  }

  /** `_repark_waiting`: back to the queue, or ERROR once the agent has waited for the deadline. */
  method ReparkWaiting(pcb: ControlBlock, queue: ReadyQueue, deadline: real, now: real) returns (requeued: bool)
    requires pcb.Valid() && !IsTerminal(pcb.status)
    modifies pcb`status, pcb`startedAt, pcb`finishedAt, pcb`waitingSince, queue`q
    ensures pcb.Valid() && requeued == !Expired(old(pcb.waitingSince), deadline, now)
    ensures pcb.waitingSince == Some(Since(old(pcb.waitingSince), now))
    ensures pcb.View() == old(pcb.View()).(status := if requeued then Ready else Error)
    ensures queue.q == old(queue.q) + if requeued then [pcb] else []
  {
    if pcb.waitingSince.None? {
      pcb.waitingSince := Some(now);
    }
    if now - pcb.waitingSince.value >= deadline {
      var _, _ := pcb.Transition(Error, now);
      return false;
    }
    var _, _ := pcb.Transition(Waiting, now);
    requeued := queue.Put(pcb, now);
  }

  /** Upstream input, once per dispatch: whether to go on, and whether the agent was requeued instead. */
  method ResolveInput(
      pcb: ControlBlock, queue: ReadyQueue, bus: MessageBus, deadline: real, stillNeedsInput: bool, now: real)
      returns (ready: bool, requeued: bool)
    requires pcb.Valid() && bus.Valid() && !IsTerminal(pcb.status) && pcb.needsInput
    modifies pcb, queue`q, bus`boxes
    ensures pcb.Valid() && bus.Valid()
    ensures ready <==> Box(old(bus.boxes), pcb.pid) != []
    ensures ready ==> !requeued && pcb.View() == old(pcb.View())
    ensures ready ==> pcb.needsInput == stillNeedsInput && pcb.waitingSince.None?
    ensures !ready ==> pcb.View() == old(pcb.View()).(status := if requeued then Ready else Error) && pcb.needsInput
    ensures !ready ==> requeued == !Expired(old(pcb.waitingSince), deadline, now)
    ensures !ready ==> pcb.waitingSince == Some(Since(old(pcb.waitingSince), now))
    ensures queue.q == old(queue.q) + if requeued then [pcb] else []
    ensures forall a: nat :: Box(bus.boxes, a)
              == if ready && a == pcb.pid then Box(old(bus.boxes), a)[1..] else Box(old(bus.boxes), a)
  {
    var msg := bus.Receive(pcb.pid);
    if msg.None? {
      requeued := ReparkWaiting(pcb, queue, deadline, now);
      return false, requeued;
    }
    pcb.needsInput, pcb.waitingSince := stillNeedsInput, None;
    return true, false;
  }

  /** Only a DONE agent's result goes to its consumer, and is dropped if that mailbox is full. */
  method ForwardResult(pcb: ControlBlock, bus: MessageBus, result: string) returns (sent: bool)
    requires bus.Valid()
    modifies bus`boxes
    ensures bus.Valid()
    ensures sent ==> pcb.status.Done? && pcb.pipeTo.Some?
    ensures pcb.status.Done? && pcb.pipeTo.Some? ==> sent == HasRoom(bus.cap, |Box(old(bus.boxes), pcb.pipeTo.value)|)
    ensures forall a: nat :: Box(bus.boxes, a)
              == Box(old(bus.boxes), a) + if sent && pcb.pipeTo == Some(a) then [Message(pcb.pid, result)] else []
  {
    sent := false;
    if pcb.status.Done? && pcb.pipeTo.Some? {
      sent := bus.Send(pcb.pipeTo.value, Message(pcb.pid, result));
    }
  }

  /**
   The whole of `_dispatch`. An agent waiting for input that has not come makes no
   step and takes no unit. Afterwards the agent is in the queue or finished,
   unless the pool was stopped before its first step, the budget in use has
   grown by exactly the calls made, and a result is sent only by a DONE agent.
   */
  method DispatchAgent(
      pcb: ControlBlock, quota: Quota, queue: ReadyQueue, bus: MessageBus?, turns: seq<Turn>,
      deadline: real, stillNeedsInput: bool, result: string, now: real)
      returns (requeued: bool, sent: bool, ghost others: int)
    requires pcb.Valid() && 0 <= quota.remaining <= quota.total && turns != [] && (bus != null ==> bus.Valid())
    modifies pcb, quota, queue`q, if bus == null then {} else {bus}
    ensures pcb.Valid() && 0 <= quota.remaining <= quota.total && (bus != null ==> bus.Valid())
    ensures quota.Value().Used() == old(quota.Value().Used()) + others + (pcb.calls - old(pcb.calls))
    ensures old(pcb.calls) <= pcb.calls <= old(pcb.calls) + |turns|
    ensures queue.q == old(queue.q) + if requeued then [pcb] else []
    ensures requeued ==> pcb.status.Ready?
    ensures !requeued ==> IsTerminal(pcb.status) || turns[0].stopBefore
    ensures old(IsTerminal(pcb.status)) ==> pcb.View() == old(pcb.View()) && !requeued && !sent
    ensures sent ==> bus != null && pcb.status.Done? && pcb.pipeTo.Some?
    ensures !old(IsTerminal(pcb.status)) && bus != null && pcb.status.Done? && pcb.pipeTo.Some? ==>
      var to := pcb.pipeTo.value;
      sent == HasRoom(bus.cap, |Remaining(old(bus.boxes), to, old(pcb.needsInput) && to == pcb.pid)|)
    ensures (!old(IsTerminal(pcb.status)) && old(pcb.needsInput)
             && (bus == null || Box(old(bus.boxes), pcb.pid) == [])) ==>
      && pcb.calls == old(pcb.calls) && others == 0 && !sent
      && pcb.status == (if bus == null || Expired(old(pcb.waitingSince), deadline, now) then Error else Ready)
    ensures (!old(IsTerminal(pcb.status))
             && (old(pcb.needsInput) ==> bus != null && Box(old(bus.boxes), pcb.pid) != [])) ==>
      var r := Course(old(pcb.View()), old(quota.Value()), turns, false);
      && pcb.View() == AfterLoop(r) && quota.Value() == r.acc
      && (Ample(old(pcb.View()), turns, old(quota.remaining)) ==>
            pcb.View() == Yielded(Quantum(old(pcb.View()), Worlds(turns), false)))
    ensures bus != null ==>
      var asks := !old(IsTerminal(pcb.status)) && old(pcb.needsInput);
      forall a: nat ::
        (Box(bus.boxes, a)
         == Remaining(old(bus.boxes), a, asks && a == pcb.pid)
            + if sent && pcb.pipeTo == Some(a) then [Message(pcb.pid, result)] else [])
  {
    requeued, sent, others := false, false, 0;
    if IsTerminal(pcb.status) {
      return;
    }
    if pcb.needsInput {
      if bus == null {
        var _, _ := pcb.Transition(Error, now);
        return;
      }
      var ready;
      ready, requeued := ResolveInput(pcb, queue, bus, deadline, stillNeedsInput, now);
      if !ready {
        return;
      }
    }
    requeued, others := RunQuantum(pcb, quota, queue, turns, now);
    if bus != null {
      sent := ForwardResult(pcb, bus, result);
    }
  }

  /** A mailbox after its owner may have taken the oldest message. */
  function Remaining(boxes: Boxes, a: nat, taken: bool): seq<Message> {
    if taken && Box(boxes, a) != [] then Box(boxes, a)[1..] else Box(boxes, a)
  }
}
