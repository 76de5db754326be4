/** Every step of the dispatch protocol keeps the invariant. */
module DispatchProofs {
  import opened Basics
  import opened Agents
  import opened Steps
  import opened Quotas
  import opened Dispatch
  import opened DispatchInvariant

  // ----- steps that move ownership -----

  lemma {:induction false} HeldElsewhere(ws: seq<Worker>, w: nat, p: Worker, b: Pid)
    requires w < |ws| && Held(ws, b) && Owner(ws[w]) != b
    ensures Held(ws[w := p], b)
  {
    var v :| 0 <= v < |ws| && Owner(ws[v]) == b;
    assert Owner(ws[w := p][v]) == b;
  }

  /** The owners change at worker w only. */
  lemma {:induction false} OwnerChange(n: nat, spawning: set<Pid>, queue: seq<Pid>, ws: seq<Worker>, w: nat, p: Worker)
    requires Owned(n, spawning, queue, ws) && w < |ws| && Owner(p) < n
    requires Owner(p) == -1 || (Owner(p) !in queue && Owner(p) !in spawning && !Held(ws, Owner(p)))
    ensures Owned(n, spawning, queue, ws[w := p])
  {
    assert forall v :: 0 <= v < |ws| && Owner(p) != -1 ==> Owner(ws[v]) != Owner(p);
  }

  lemma {:induction false} WorkersOkUpdate(stop: bool, gs: seq<Agent>, ws: seq<Worker>, w: nat, p: Worker)
    requires WorkersOk(stop, gs, ws) && w < |ws|
    requires 0 <= Owner(p) < |gs| ==> WorkerOk(stop, gs[Owner(p)], p)
    ensures WorkersOk(stop, gs, ws[w := p])
  {
  }

  /** Worker w lets go of its agent, which is finished or given up at shutdown. */
  lemma {:induction false} DropKeepsInv(s: State, w: nat)
    requires Inv(s) && Holds(s, w)
    requires IsTerminal(StatusOf(s, Owner(s.workers[w]))) || (s.stop && Quiet(s.agents[Owner(s.workers[w])]))
    requires Units(s.workers[w]) == 0
    ensures Inv(At(s, w, Finishing))
  {
    var ws' := s.workers[w := Finishing];
    UpdateWorkers(s.workers, w, Finishing);
    OwnerChange(|s.agents|, s.spawning, s.queue, s.workers, w, Finishing);
    WorkersOkUpdate(s.stop, s.agents, s.workers, w, Finishing);
    forall b: Pid | b < |s.agents|
      ensures Placed(s.agents[b], b, s.spawning, s.queue, ws', s.stop)
    {
      assert Placed(s.agents[b], b, s.spawning, s.queue, s.workers, s.stop);
      if Held(s.workers, b) && Owner(s.workers[w]) != b {
        HeldElsewhere(s.workers, w, Finishing, b);
      }
    }
  }

  lemma {:induction false} WithoutElement(q: seq<Pid>, i: nat)
    requires i < |q| && Distinct(q)
    ensures Distinct(Without(q, i)) && q[i] !in Without(q, i)
    ensures forall b :: b in Without(q, i) <==> b in q && b != q[i]
  {
    var r := Without(q, i);
    forall b | b in q && b != q[i]
      ensures b in r
    {
      var j :| 0 <= j < |q| && q[j] == b;
      assert r[if j < i then j else j - 1] == b;
    }
  }

  lemma {:induction false} RemoveElement(q: seq<Pid>, a: Pid)
    requires Distinct(q)
    ensures Distinct(Remove(q, a)) && a !in Remove(q, a)
    ensures forall b :: b in Remove(q, a) <==> b in q && b != a
  {
    if q != [] {
      var rest := Remove(q[1..], a);
      RemoveElement(q[1..], a);
      assert q == [q[0]] + q[1..];
      if q[0] != a {
        assert q[0] !in rest;
        assert Distinct([q[0]] + rest);
      }
    }
  }

  /** Membership is all the invariant knows of the queue, besides distinctness. */
  lemma {:induction false} QueueChange(n: nat, spawning: set<Pid>, q: seq<Pid>, q': seq<Pid>, ws: seq<Worker>)
    requires Owned(n, spawning, q, ws) && Distinct(q') && forall b :: b in q' ==> b in q
    ensures Owned(n, spawning, q', ws)
  {
  }

  lemma {:induction false} UnqueueKeepsInv(s: State, a: Pid)
    requires Inv(s) && a < |s.agents| && IsTerminal(StatusOf(s, a))
    ensures Inv(s.(queue := Remove(s.queue, a)))
  {
    RemoveElement(s.queue, a);
    QueueChange(|s.agents|, s.spawning, s.queue, Remove(s.queue, a), s.workers);
  }

  lemma {:induction false} PopKeepsInv(s: State, w: nat, i: nat)
    requires Inv(s) && w < |s.workers| && s.workers[w].Idle? && i < |s.queue|
    ensures Inv(DoPop(s, w, i))
  {
    var a := s.queue[i];
    var p, q := Popped(a), Without(s.queue, i);
    UpdateWorkers(s.workers, w, p);
    WithoutElement(s.queue, i);
    assert a in s.queue;
    QueueChange(|s.agents|, s.spawning, s.queue, q, s.workers);
    OwnerChange(|s.agents|, s.spawning, q, s.workers, w, p);
    WorkersOkUpdate(s.stop, s.agents, s.workers, w, p);
    forall b: Pid | b < |s.agents|
      ensures Placed(s.agents[b], b, s.spawning, q, s.workers[w := p], s.stop)
    {
      assert Placed(s.agents[b], b, s.spawning, s.queue, s.workers, s.stop);
      if b == a {
        assert Owner(s.workers[w := p][w]) == a;
      } else if Held(s.workers, b) {
        HeldElsewhere(s.workers, w, p, b);
      }
    }
  }

  lemma {:induction false} AppendQueue(n: nat, spawning: set<Pid>, q: seq<Pid>, ws: seq<Worker>, a: Pid)
    requires Owned(n, spawning, q, ws) && a < n && a !in q && a !in spawning && !Held(ws, a)
    ensures Owned(n, spawning, q + [a], ws)
    ensures forall b :: b in q + [a] <==> b in q || b == a
  {
    assert forall v :: 0 <= v < |ws| ==> Owner(ws[v]) != a;
    assert forall b :: b in q + [a] <==> b in q || b == a;
  }

  /** Worker w, about to put its unfinished agent, hands it to the queue. */
  lemma {:induction false} HandBackKeepsInv(s: State, w: nat)
    requires Inv(s) && Holds(s, w) && s.workers[w].Requeueing?
    ensures Inv(At(s, w, Finishing).(queue := s.queue + [Owner(s.workers[w])]))
  {
    var a := Owner(s.workers[w]);
    var q, ws' := s.queue + [a], s.workers[w := Finishing];
    UpdateWorkers(s.workers, w, Finishing);
    OwnerChange(|s.agents|, s.spawning, s.queue, s.workers, w, Finishing);
    assert !Held(ws', a);
    AppendQueue(|s.agents|, s.spawning, s.queue, ws', a);
    WorkersOkUpdate(s.stop, s.agents, s.workers, w, Finishing);
    assert WorkerOk(s.stop, s.agents[a], s.workers[w]);
    forall b: Pid | b < |s.agents|
      ensures Placed(s.agents[b], b, s.spawning, q, ws', s.stop)
    {
      assert Placed(s.agents[b], b, s.spawning, s.queue, s.workers, s.stop);
      if b != a && Held(s.workers, b) {
        HeldElsewhere(s.workers, w, Finishing, b);
      }
    }
  }

  lemma {:induction false} RequeueKeepsInv(s: State, w: nat)
    requires Inv(s) && Holds(s, w) && s.workers[w].Requeueing?
    ensures Inv(DoRequeue(s, w))
  {
    var a := Owner(s.workers[w]);
    if IsTerminal(StatusOf(s, a)) {
      DropKeepsInv(s, w);
    } else {
      var g' := Moved(s.agents[a], Ready);
      LocalKeepsInv(s, w, s.workers[w], g', s.quota, s.summaries);
      var s1 := Local(s, w, s.workers[w], g', s.quota, s.summaries);
      HandBackKeepsInv(s1, w);
      assert DoRequeue(s, w) == At(s1, w, Finishing).(queue := s1.queue + [a]);
    }
  }

  // ----- steps from outside -----

  /** A kill can land at any moment: whatever the owner knows survives it. */
  lemma {:induction false} KillIsTolerated(stop: bool, g: Agent, p: Worker)
    requires WorkerOk(stop, g, p)
    ensures WorkerOk(stop, Moved(g, Zombie), p)
  {
  }

  /** Somebody other than a worker changes the record of agent a. */
  lemma {:induction false} OutsideChange(s: State, a: Pid, g': Agent)
    requires Inv(s) && a < |s.agents| && Allowed(s.agents[a], g') && AgentOk(g')
    requires g'.block.calls == s.agents[a].block.calls
    requires a in s.spawning || a in s.queue ==> Quiet(g')
    requires g' == Moved(s.agents[a], Zombie) || a in s.spawning
    ensures Inv(WithAgent(s, a, g'))
  {
    UpdateCalls(s.agents, a, g');
    RecordChange(s, a, g', s.workers);
    forall v | 0 <= v < |s.workers| && 0 <= Owner(s.workers[v]) < |s.agents|
      ensures WorkerOk(s.stop, s.agents[a := g'][Owner(s.workers[v])], s.workers[v])
    {
      if Owner(s.workers[v]) == a {
        KillIsTolerated(s.stop, s.agents[a], s.workers[v]);
      }
    }
  }

  lemma {:induction false} RegisterOwned(n: nat, spawning: set<Pid>, queue: seq<Pid>, ws: seq<Worker>)
    requires Owned(n, spawning, queue, ws)
    ensures Owned(n + 1, spawning + {n}, queue, ws) && n !in queue
  {
  }

  lemma {:induction false} RegisterWorkers(stop: bool, gs: seq<Agent>, g: Agent, ws: seq<Worker>)
    requires WorkersOk(stop, gs, ws) && forall w :: 0 <= w < |ws| ==> Owner(ws[w]) < |gs|
    ensures WorkersOk(stop, gs + [g], ws)
  {
  }

  lemma {:induction false} RegisterRecords(
      gs: seq<Agent>, g: Agent, spawning: set<Pid>, queue: seq<Pid>, ws: seq<Worker>, piped: set<Pid>, stop: bool)
    requires NoneLost(gs, spawning, queue, ws, stop) && AgentsOk(gs, spawning)
    requires WaitersQuiet(gs, spawning, queue) && PipedDone(gs, piped) && AgentOk(g) && Quiet(g)
    ensures var gs', spawning' := gs + [g], spawning + {|gs|};
      && NoneLost(gs', spawning', queue, ws, stop) && AgentsOk(gs', spawning')
      && WaitersQuiet(gs', spawning', queue) && PipedDone(gs', piped)
  {
    var gs', spawning' := gs + [g], spawning + {|gs|};
    forall a: Pid | a < |gs'|
      ensures Placed(gs'[a], a, spawning', queue, ws, stop)
    {
      assert a < |gs| ==> Placed(gs[a], a, spawning, queue, ws, stop);
    }
  }

  lemma {:induction false} RegisterKeepsInv(s: State, kind: Kind, granted: int, needsInput: bool, pipeTo: Option<Pid>)
    requires Inv(s)
    ensures Inv(Registered(s, kind, granted, needsInput, pipeTo))
  {
    var g := Registered(s, kind, granted, needsInput, pipeTo).agents[|s.agents|];
    AppendCalls(s.agents, g);
    RegisterOwned(|s.agents|, s.spawning, s.queue, s.workers);
    RegisterWorkers(s.stop, s.agents, g, s.workers);
    RegisterRecords(s.agents, g, s.spawning, s.queue, s.workers, s.piped, s.stop);
  }

  lemma {:induction false} EnqueueKeepsInv(s: State, a: Pid)
    requires Inv(s) && a in s.spawning && a < |s.agents|
    ensures Inv(Put(s, a).(spawning := s.spawning - {a}))
  {
    if IsTerminal(StatusOf(s, a)) {
      LeaveSpawner(s, a, s.queue);
    } else {
      var s1 := WithAgent(s, a, Moved(s.agents[a], Ready));
      OutsideChange(s, a, s1.agents[a]);
      LeaveSpawner(s1, a, s.queue + [a]);
    }
  }

  lemma {:induction false} LeaveSpawner(s: State, a: Pid, q: seq<Pid>)
    requires Inv(s) && a in s.spawning && a < |s.agents| && !StatusOf(s, a).New?
    requires q == if IsTerminal(StatusOf(s, a)) then s.queue else s.queue + [a]
    ensures Inv(s.(queue := q, spawning := s.spawning - {a}))
  {
    var sp := s.spawning - {a};
    assert !Held(s.workers, a) && a !in s.queue;
    assert Owned(|s.agents|, sp, s.queue, s.workers);
    AppendQueue(|s.agents|, sp, s.queue, s.workers, a);
  }

  lemma {:induction false} EventKeepsInv(s: State, e: Event)
    requires Inv(s) && EventEnabled(s, e)
    ensures Inv(ApplyEvent(s, e))
  {
    match e
    case Register(k, q, i, p) => RegisterKeepsInv(s, k, q, i, p);
    case Announce(a) => OutsideChange(s, a, Moved(s.agents[a], Waiting));
    case Enqueue(a) => EnqueueKeepsInv(s, a);
    case Kill(a) => OutsideChange(s, a, Moved(s.agents[a], Zombie));
    case Unqueue(a) => UnqueueKeepsInv(s, a);
    case DropMailbox(_) =>
    case TopUp(_) =>
    case Stop =>
  }

  // ----- steps of a worker -----

  /** Worker w moves on without touching its agent's record. */
  lemma {:induction false} MoveOn(s: State, w: nat, p': Worker, acc: Account, summaries: nat)
    requires Inv(s) && Holds(s, w) && Owner(p') == Owner(s.workers[w])
    requires WorkerOk(s.stop, s.agents[Owner(s.workers[w])], p')
    requires acc.Used() - s.quota.Used() == summaries - s.summaries + Units(p') - Units(s.workers[w])
    ensures Inv(At(s, w, p').(quota := acc, summaries := summaries))
  {
    var a := Owner(s.workers[w]);
    LocalKeepsInv(s, w, p', s.agents[a], acc, summaries);
    assert s.agents[a := s.agents[a]] == s.agents;
  }

  lemma {:induction false} Step(s: State, w: nat, p': Worker)
    requires Inv(s) && Holds(s, w) && Owner(p') == Owner(s.workers[w])
    requires WorkerOk(s.stop, s.agents[Owner(s.workers[w])], p')
    requires Units(p') == Units(s.workers[w])
    ensures Inv(At(s, w, p'))
  {
    MoveOn(s, w, p', s.quota, s.summaries);
  }

  /** What the invariant says about the worker at hand. */
  lemma {:induction false} Known(s: State, w: nat)
    requires Inv(s) && Holds(s, w)
    ensures var a := Owner(s.workers[w]);
      && WorkerOk(s.stop, s.agents[a], s.workers[w]) && AgentOk(s.agents[a]) && !StatusOf(s, a).New?
    ensures s.quota.Used() >= Units(s.workers[w])
  {
    BusyAtLeast(s.workers, w);
  }

  lemma {:induction false} InspectKeepsInv(c: Config, s: State, w: nat)
    requires Inv(s) && Holds(s, w) && s.workers[w].Popped?
    ensures Inv(DoInspect(c, s, w))
  {
    Known(s, w);
    var a := Owner(s.workers[w]);
    if IsTerminal(StatusOf(s, a)) {
      DropKeepsInv(s, w);
    } else {
      Step(s, w, DoInspect(c, s, w).workers[w]);
    }
  }

  lemma {:induction false} ReceiveKeepsInv(c: Config, s: State, w: nat, still: bool)
    requires Inv(s) && Holds(s, w) && s.workers[w].Receiving?
    ensures Inv(DoReceive(c, s, w, still))
  {
    Known(s, w);
    var a := Owner(s.workers[w]);
    if Mailbox(s, a) == [] {
      Step(s, w, Parking(a));
    } else {
      var p' := Looping(a, StepLimit(c), false);
      LocalKeepsInv(s, w, p', s.agents[a].(needsInput := still), s.quota, s.summaries);
    }
  }

  /** Worker w's own transition of its agent. */
  lemma {:induction false} TransitionKeepsInv(s: State, w: nat, t: Status, p': Worker)
    requires Inv(s) && Holds(s, w) && Owner(p') == Owner(s.workers[w]) && !t.New?
    requires WorkerOk(s.stop, Moved(s.agents[Owner(s.workers[w])], t), p')
    requires Units(p') == Units(s.workers[w])
    ensures Inv(MoveAt(s, w, t, p'))
  {
    var g := s.agents[Owner(s.workers[w])];
    assert AgentOk(g) && !g.block.status.New?;
    MovedIsAllowed(g, t);
    LocalKeepsInv(s, w, p', Moved(g, t), s.quota, s.summaries);
    assert MoveAt(s, w, t, p') == Local(s, w, p', Moved(g, t), s.quota, s.summaries);
  }

  lemma {:induction false} MovedIsAllowed(g: Agent, t: Status)
    requires AgentOk(g) && !t.New?
    ensures Allowed(g, Moved(g, t)) && AgentOk(Moved(g, t)) && Moved(g, t).block.calls == g.block.calls
  {
  }

  lemma {:induction false} ParkKeepsInv(s: State, w: nat, expired: bool)
    requires Inv(s) && Holds(s, w) && (s.workers[w].Parking? || s.workers[w].Failing?)
    ensures Inv(DoPark(s, w, expired))
  {
    Known(s, w);
    if s.workers[w].Failing? || expired {
      var s1 := MoveAt(s, w, Error, s.workers[w]);
      TransitionKeepsInv(s, w, Error, s.workers[w]);
      DropKeepsInv(s1, w);
      assert DoPark(s, w, expired) == At(s1, w, Finishing);
    } else {
      TransitionKeepsInv(s, w, Waiting, Requeueing(Owner(s.workers[w])));
    }
  }

  lemma {:induction false} BlockKeepsInv(s: State, w: nat)
    requires Inv(s) && Holds(s, w) && s.workers[w].Stalled?
    ensures Inv(DoMarkBlocked(s, w))
  {
    Known(s, w);
    var p := s.workers[w];
    TransitionKeepsInv(s, w, Blocked, Blocking(p.a, p.left));
  }

  lemma {:induction false} QuotaKeepsInv(c: Config, s: State, w: nat, m: Act)
    requires Inv(s) && Holds(s, w) && CanDo(s, s.workers[w], m)
    requires m.Acquire? || m.Wake? || m.GiveBack?
    ensures Inv(Perform(c, s, w, m))
  {
    Known(s, w);
    var p := s.workers[w];
    match m
    case Acquire => MoveOn(s, w, DoAcquire(s, w).workers[w], DoAcquire(s, w).quota, s.summaries);
    case Wake(got) => MoveOn(s, w, Woken(p.a, p.left, got), DoWake(s, w, got).quota, s.summaries);
    case GiveBack => MoveOn(s, w, Requeueing(p.a), Refund(s.quota, 1), s.summaries);
  }

  lemma {:induction false} FlagKeepsInv(c: Config, s: State, w: nat, m: Act)
    requires Inv(s) && Holds(s, w) && CanDo(s, s.workers[w], m)
    requires m.Loop? || m.Resume?
    ensures Inv(Perform(c, s, w, m))
  {
    Known(s, w);
    match m
    case Loop => Step(s, w, DoLoop(s, w).workers[w]);
    case Resume => Step(s, w, DoResume(s, w).workers[w]);
  }

  lemma {:induction false} EnterKeepsInv(s: State, w: nat, gateOpen: bool)
    requires Inv(s) && Holds(s, w) && s.workers[w].Entering?
    ensures Inv(DoEnter(s, w, gateOpen))
  {
    Known(s, w);
    var a := Owner(s.workers[w]);
    var s' := DoEnter(s, w, gateOpen);
    LocalKeepsInv(s, w, s'.workers[w], s'.agents[a], s.quota, s.summaries);
  }

  lemma {:induction false} SummaryKeepsInv(c: Config, s: State, w: nat, m: Act)
    requires Inv(s) && Holds(s, w) && CanDo(s, s.workers[w], m)
    requires m.Summarise? || m.Summarised? || m.SummaryRaised?
    ensures Inv(Perform(c, s, w, m))
  {
    Known(s, w);
    var p := s.workers[w];
    match m
    case Summarise => MoveOn(s, w, Summarising(p.a, p.left, p.before), Take(s.quota, 1), s.summaries);
    case Summarised => MoveOn(s, w, Assembling(p.a, p.left, p.before), s.quota, s.summaries + 1);
    case SummaryRaised(t) => MoveOn(s, w, DoRaise(s, w, Failure(t)).workers[w], Refund(s.quota, 1), s.summaries);
  }

  lemma {:induction false} RaiseKeepsInv(s: State, w: nat, t: Status)
    requires Inv(s) && Holds(s, w) && IsTerminal(t)
    requires var p := s.workers[w]; p.Assembling? || p.Calling? || p.Charged?
    ensures Inv(DoRaise(s, w, t))
  {
    Known(s, w);
    Step(s, w, DoRaise(s, w, t).workers[w]);
  }

  lemma {:induction false} MarkKeepsInv(s: State, w: nat)
    requires Inv(s) && Holds(s, w) && s.workers[w].Marking?
    ensures Inv(DoMark(s, w))
  {
    Known(s, w);
    var p := s.workers[w];
    TransitionKeepsInv(s, w, Running, Assembling(p.a, p.left, p.before));
  }

  lemma {:induction false} StartCallKeepsInv(s: State, w: nat)
    requires Inv(s) && Holds(s, w) && s.workers[w].Assembling?
    ensures Inv(DoCall(s, w))
  {
    Known(s, w);
    Step(s, w, DoCall(s, w).workers[w]);
  }

  lemma {:induction false} CallKeepsInv(s: State, w: nat)
    requires Inv(s) && Holds(s, w) && s.workers[w].Calling?
    ensures Inv(DoCallReturned(s, w))
  {
    Known(s, w);
    var s' := DoCallReturned(s, w);
    LocalKeepsInv(s, w, s'.workers[w], s'.agents[Owner(s.workers[w])], s.quota, s.summaries);
  }

  lemma {:induction false} ConcludeKeepsInv(s: State, w: nat, reply: Reply, sandboxOk: bool)
    requires Inv(s) && Holds(s, w) && s.workers[w].Charged? && !reply.Raised?
    ensures Inv(DoConclude(s, w, reply, sandboxOk))
  {
    Known(s, w);
    var a := Owner(s.workers[w]);
    var s' := DoConclude(s, w, reply, sandboxOk);
    if s.agents[a].block.status.Zombie? {
      Step(s, w, s'.workers[w]);
    } else {
      LocalKeepsInv(s, w, s'.workers[w], s'.agents[a], s.quota, s.summaries);
    }
  }

  lemma {:induction false} CloseKeepsInv(s: State, w: nat)
    requires Inv(s) && Holds(s, w) && s.workers[w].Closing?
    ensures Inv(DoClose(s, w))
  {
    Known(s, w);
    var p := s.workers[w];
    TransitionKeepsInv(s, w, p.to, Settling(p.a, p.left, p.before, p.charged, false));
  }

  lemma {:induction false} SettleKeepsInv(s: State, w: nat)
    requires Inv(s) && Holds(s, w) && s.workers[w].Settling?
    ensures Inv(DoSettle(s, w))
  {
    Known(s, w);
    var p := s.workers[w];
    MoveOn(s, w, Checking(p.a, p.left, p.keep), DoSettle(s, w).quota, s.summaries);
  }

  lemma {:induction false} CheckKeepsInv(s: State, w: nat)
    requires Inv(s) && Holds(s, w) && s.workers[w].Checking?
    ensures Inv(DoCheck(s, w))
  {
    Known(s, w);
    Step(s, w, DoCheck(s, w).workers[w]);
  }

  lemma {:induction false} PipeKeepsInv(c: Config, s: State, w: nat)
    requires Inv(s) && Holds(s, w) && s.workers[w].Piping?
    ensures Inv(DoPipe(c, s, w))
  {
    Known(s, w);
    Step(s, w, DoPipe(c, s, w).workers[w]);
  }

  lemma {:induction false} SendKeepsInv(c: Config, s: State, w: nat)
    requires Inv(s) && Holds(s, w) && s.workers[w].Sending?
    ensures Inv(DoSend(c, s, w))
  {
    Known(s, w);
    var p := s.workers[w];
    Step(s, w, Yielding(p.a, p.keep));
  }

  lemma {:induction false} YieldKeepsInv(s: State, w: nat)
    requires Inv(s) && Holds(s, w) && s.workers[w].Yielding?
    ensures Inv(DoYield(s, w))
  {
    Known(s, w);
    var p := s.workers[w];
    if p.keep && !IsTerminal(StatusOf(s, p.a)) {
      Step(s, w, Requeueing(p.a));
    } else {
      DropKeepsInv(s, w);
    }
  }

  lemma {:induction false} TaskDoneKeepsInv(s: State, w: nat)
    requires Inv(s) && w < |s.workers| && s.workers[w].Finishing?
    ensures s.inFlight > 0 && Inv(DoTaskDone(s, w))
  {
    BusyAtLeast(s.workers, w);
    UpdateWorkers(s.workers, w, Idle);
    OwnerChange(|s.agents|, s.spawning, s.queue, s.workers, w, Idle);
    WorkersOkUpdate(s.stop, s.agents, s.workers, w, Idle);
    forall b: Pid | b < |s.agents|
      ensures Placed(s.agents[b], b, s.spawning, s.queue, s.workers[w := Idle], s.stop)
    {
      assert Placed(s.agents[b], b, s.spawning, s.queue, s.workers, s.stop);
      if Held(s.workers, b) {
        HeldElsewhere(s.workers, w, Idle, b);
      }
    }
  }

  lemma {:induction false} PerformKeepsInv(c: Config, s: State, w: nat, m: Act)
    requires Inv(s) && Holds(s, w) && CanDo(s, s.workers[w], m)
    ensures Inv(Perform(c, s, w, m))
  {
    match m
    case Inspect => InspectKeepsInv(c, s, w);
    case Receive(still) => ReceiveKeepsInv(c, s, w, still);
    case Park(expired) => ParkKeepsInv(s, w, expired);
    case Requeue => RequeueKeepsInv(s, w);
    case Loop => FlagKeepsInv(c, s, w, m);
    case Acquire => QuotaKeepsInv(c, s, w, m);
    case MarkBlocked => BlockKeepsInv(s, w);
    case Wake(_) => QuotaKeepsInv(c, s, w, m);
    case Resume => FlagKeepsInv(c, s, w, m);
    case GiveBack => QuotaKeepsInv(c, s, w, m);
    case Enter(gateOpen) => EnterKeepsInv(s, w, gateOpen);
    case Mark => MarkKeepsInv(s, w);
    case Summarise => SummaryKeepsInv(c, s, w, m);
    case Summarised => SummaryKeepsInv(c, s, w, m);
    case SummaryRaised(_) => SummaryKeepsInv(c, s, w, m);
    case ContextRaised(t) => RaiseKeepsInv(s, w, Failure(t));
    case Call => StartCallKeepsInv(s, w);
    case CallReturned => CallKeepsInv(s, w);
    case CallRaised(t) => RaiseKeepsInv(s, w, Failure(t));
    case Conclude(reply, sandboxOk) => ConcludeKeepsInv(s, w, reply, sandboxOk);
    case StepCrashed => RaiseKeepsInv(s, w, Error);
    case Close => CloseKeepsInv(s, w);
    case Settle => SettleKeepsInv(s, w);
    case Check => CheckKeepsInv(s, w);
    case Pipe => PipeKeepsInv(c, s, w);
    case Send => SendKeepsInv(c, s, w);
    case Yield => YieldKeepsInv(s, w);
  }

  /** The invariant is inductive. */
  lemma {:induction false} StepKeepsInv(c: Config, s: State, l: Label)
    requires Inv(s) && Enabled(s, l)
    ensures Inv(Apply(c, s, l))
  {
    match l
    case Outside(e) => EventKeepsInv(s, e);
    case By(w, m) =>
      if m.Pop? {
        PopKeepsInv(s, w, m.i);
      } else if m.TaskDone? {
        TaskDoneKeepsInv(s, w);
      } else {
        PerformKeepsInv(c, s, w, m);
      }
  }

  lemma {:induction false} RunKeepsInv(c: Config, s: State, ls: seq<Label>, t: State)
    requires Inv(s) && Runs(c, s, ls, t)
    ensures Inv(t)
    decreases |ls|
  {
    if ls != [] {
      StepKeepsInv(c, s, ls[0]);
      RunKeepsInv(c, Apply(c, s, ls[0]), ls[1..], t);
    }
  }

  lemma {:induction false} ReachableInv(c: Config, s: State)
    requires Reachable(c, s)
    ensures Inv(s)
  {
    var init, ls :| Initial(init) && Runs(c, init, ls, s);
    InitialInv(init);
    RunKeepsInv(c, init, ls, s);
  }
}
