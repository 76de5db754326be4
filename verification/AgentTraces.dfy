/**
 One worker draining the ready queue of real control blocks
 (gcos/kernel/worker_pool.py): the order of LLM calls is the call trace of
 module Schedules. The model decides when an agent is finished, so an agent's
 burst is the number of its first final reply, and `worldOf(pid, i)` is what
 the agent meets at its i-th call.
 */
module AgentTraces {
  import opened Basics
  import opened Agents
  import opened Steps
  import opened Quotas
  import opened ReadyQueues
  import opened WorkerLoop
  import opened Schedules

  /** What an agent's model does: `burst` calls in all, tools and then the answer. */
  ghost predicate Plays(k: Kind, pid: nat, burst: nat, worldOf: (nat, nat) -> World) {
    && (forall i: nat :: i + 1 < burst ==> Continues(worldOf(pid, i)))
    && (burst >= 1 ==> Answers(k, worldOf(pid, burst - 1)))
  }

  /** Called i times already, with the rest of its burst and the means for it ahead. */
  ghost predicate InBurst(p: ControlBlock, burst: nat -> nat)
    reads p
  {
    p.Valid() && p.calls < burst(p.pid) && HasBurst(p.View(), burst(p.pid) - p.calls)
  }

  ghost function JobOf(p: ControlBlock, burst: nat -> nat): Job
    reads p
  {
    Job(p.pid, if p.calls <= burst(p.pid) then burst(p.pid) - p.calls else 0)
  }

  ghost function JobsOf(q: seq<ControlBlock>, burst: nat -> nat): seq<Job>
    reads q
  {
    seq(|q|, i requires 0 <= i < |q| reads q => JobOf(q[i], burst))
  }

  /** The turns of one dispatch: nobody stops the pool, and the model replies as it does. */
  function TurnsOf(pid: nat, calls: nat, limit: nat, worldOf: (nat, nat) -> World): (turns: seq<Turn>)
    ensures |turns| == limit && Undisturbed(turns)
    ensures forall i :: 0 <= i < limit ==> Worlds(turns)[i] == worldOf(pid, calls + i)
  {
    seq(limit, i requires 0 <= i < limit => Turn(false, [], false, worldOf(pid, calls + i)))
  }

  /** One dispatch serves the burst as the trace says. */
  lemma {:induction false} DispatchServes(b: Block, pid: nat, burst: nat, limit: nat, worldOf: (nat, nat) -> World)
    requires b.calls < burst && HasBurst(b, burst - b.calls) && limit >= 1 && Plays(b.kind, pid, burst, worldOf)
    ensures StepsOf(b, Worlds(TurnsOf(pid, b.calls, limit, worldOf))) == Min(burst - b.calls, limit)
    ensures var r := Yielded(Quantum(b, Worlds(TurnsOf(pid, b.calls, limit, worldOf)), false));
      && r.calls == b.calls + Min(burst - b.calls, limit)
      && (if burst - b.calls <= limit then r.status.Done? else r.status.Ready? && HasBurst(r, burst - r.calls))
  {
    var ws := Worlds(TurnsOf(pid, b.calls, limit, worldOf));
    QuantumServesBurst(b, burst - b.calls, ws, false);
  }

  /** Valid, different agents, all with their bursts ahead. */
  ghost predicate AllInBurst(q: seq<ControlBlock>, burst: nat -> nat)
    reads q
  {
    && (forall i :: 0 <= i < |q| ==> InBurst(q[i], burst))
    && (forall i, j :: 0 <= i < j < |q| ==> q[i] != q[j])
  }

  /** One iteration of the worker's loop: pop, run a quantum, requeue or drop, task_done. */
  method ServeHead(
      queue: ReadyQueue, quota: Quota, burst: nat -> nat, worldOf: (nat, nat) -> World, limit: nat, now: real)
      returns (p: ControlBlock, made: nat)
    requires queue.q != [] && AllInBurst(queue.q, burst) && limit >= 1
    requires Plays(queue.q[0].kind, queue.q[0].pid, burst(queue.q[0].pid), worldOf)
    requires JobOf(queue.q[0], burst).burst <= quota.remaining <= quota.total
    modifies queue, quota, queue.q[0]
    ensures p == old(queue.q[0]) && made == Min(old(JobOf(queue.q[0], burst)).burst, limit)
    ensures p.calls == old(queue.q[0].calls) + made
    ensures quota.total == old(quota.total) && quota.remaining == old(quota.remaining) - made
    ensures queue.inFlight == old(queue.inFlight)
    ensures if old(JobOf(queue.q[0], burst)).burst <= limit
            then queue.q == old(queue.q)[1..] && p.status.Done?
            else queue.q == old(queue.q)[1..] + [p] && InBurst(p, burst)
  {
    var r := queue.PopLeft();
    p := r.value;
    ghost var b, n := p.View(), burst(p.pid);
    var before := p.calls;
    DispatchServes(b, p.pid, n, limit, worldOf);
    var requeued;
    ghost var others;
    requeued, others := RunQuantum(p, quota, queue, TurnsOf(p.pid, p.calls, limit, worldOf), now);
    made := p.calls - before;
    var _ := queue.TaskDone();
  }

  /** What the head's dispatch does to the queue is what `Rest` does to its jobs. */
  lemma {:induction false} ServedJobs(
      q: seq<ControlBlock>, q': seq<ControlBlock>, jobs: seq<Job>, burst: nat -> nat, limit: nat)
    requires |jobs| == |q| > 0 && limit >= 1
    requires forall i :: 1 <= i < |q| ==> jobs[i] == JobOf(q[i], burst)
    requires q' == q[1..] + if jobs[0].burst <= limit then [] else [q[0]]
    requires jobs[0].burst > limit ==> JobOf(q[0], burst) == Job(jobs[0].pid, jobs[0].burst - limit)
    ensures JobsOf(q', burst) == Rest(jobs, limit)
  {
  }

  ghost predicate Loaded(q: seq<ControlBlock>, burst: nat -> nat, worldOf: (nat, nat) -> World)
    reads q
  {
    AllInBurst(q, burst) && forall i :: 0 <= i < |q| ==> Plays(q[i].kind, q[i].pid, burst(q[i].pid), worldOf)
  }

  /** The same iteration, seen from the queue as a whole. */
  method ServeQueue(
      queue: ReadyQueue, quota: Quota, burst: nat -> nat, worldOf: (nat, nat) -> World, limit: nat, now: real)
      returns (pid: nat, made: nat)
    requires queue.q != [] && Loaded(queue.q, burst, worldOf) && limit >= 1
    requires JobOf(queue.q[0], burst).burst <= quota.remaining <= quota.total
    modifies queue, quota, queue.q[0]
    ensures Loaded(queue.q, burst, worldOf) && queue.inFlight == old(queue.inFlight)
    ensures JobsOf(queue.q, burst) == Rest(old(JobsOf(queue.q, burst)), limit)
    ensures forall p :: p in queue.q ==> p in old(queue.q)
    ensures forall p :: p in old(queue.q) ==> p in queue.q || p.status.Done?
    ensures var job := old(JobOf(queue.q[0], burst)); pid == job.pid && made == Min(job.burst, limit)
    ensures quota.total == old(quota.total) && quota.remaining == old(quota.remaining) - made
  {
    ghost var q, jobs := queue.q, JobsOf(queue.q, burst);
    var p;
    p, made := ServeHead(queue, quota, burst, worldOf, limit, now);
    pid := p.pid;
    ServedJobs(q, queue.q, jobs, burst, limit);
    assert q == [p] + q[1..];
  }

  /**
   The worker alone, with an ample budget and no kills: it ends with the queue
   empty and every agent DONE, the calls were made in exactly the order of the
   trace, and exactly that many units are used.
   */
  method DrainAgents(
      queue: ReadyQueue, quota: Quota, burst: nat -> nat, worldOf: (nat, nat) -> World, limit: nat, now: real)
      returns (trace: seq<nat>)
    requires Loaded(queue.q, burst, worldOf) && limit >= 1
    requires quota.remaining <= quota.total && Work(JobsOf(queue.q, burst)) <= quota.remaining
    modifies queue, quota, queue.q
    ensures trace == Trace(old(JobsOf(queue.q, burst)), limit)
    ensures queue.q == [] && queue.inFlight == old(queue.inFlight)
    ensures forall i :: 0 <= i < |old(queue.q)| ==> old(queue.q)[i].status.Done?
    ensures quota.total == old(quota.total)
    ensures quota.remaining == old(quota.remaining) - Work(old(JobsOf(queue.q, burst)))
  {
    trace := [];
    ghost var all := queue.q;
    ghost var jobs := JobsOf(queue.q, burst);
    ghost var goal := jobs;
    while queue.q != []
      invariant Loaded(queue.q, burst, worldOf) && queue.inFlight == old(queue.inFlight)
      invariant forall p :: p in queue.q ==> p in all
      invariant forall p :: p in all ==> p in queue.q || p.status.Done?
      invariant jobs == JobsOf(queue.q, burst) && trace + Trace(jobs, limit) == Trace(goal, limit)
      invariant quota.remaining <= quota.total == old(quota.total)
      invariant quota.remaining == old(quota.remaining) - Work(goal) + Work(jobs)
      decreases Work(jobs)
    {
      RestWork(jobs, limit);
      assert jobs[0].burst >= 1;
      var pid, made := ServeQueue(queue, quota, burst, worldOf, limit, now);
      Assoc(trace, Repeat(pid, made), Trace(Rest(jobs, limit), limit));
      trace := trace + Repeat(pid, made);
      jobs := Rest(jobs, limit);
    }
  }
}
