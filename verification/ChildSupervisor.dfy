/**
 One call of `_run_in_process` (gcos/kernel/process_pool.py), as it updates the
 control block and the shared budget: reserve, fork, drive the child, apply its
 report, reconcile. `worlds` is what the child's steps meet, `killed` says that a
 kill reached the parent's block meanwhile, `died` that no report came back.
 */
module ChildSupervisor {
  import opened Basics
  import opened Agents
  import opened Steps
  import opened StepRunner
  import opened Quotas
  import opened ReadyQueues
  import opened ProcessPool

  predicate Dry(reserve: nat, wanted: int) {
    reserve == 0 && wanted > 0
  }

  /** The child's final block; a raised exception is reported as an error. */
  function ChildResult(b: Block, reserve: nat, ws: seq<World>): Block {
    var (r, crashed) := Drive(b.(quota := reserve), ws);
    if crashed then r.(status := Error) else r
  }

  lemma {:induction false} ChildSpendsAtMostTheReservation(b: Block, reserve: nat, ws: seq<World>)
    ensures b.calls <= ChildResult(b, reserve, ws).calls <= b.calls + reserve
  {
    DriveStaysWithinQuota(b.(quota := reserve), ws);
  }

  /** A child whose step raises reports ERROR, and otherwise where its steps left it. */
  lemma {:induction false} ChildReportsItsEnd(b: Block, reserve: nat, ws: seq<World>)
    ensures var (r, crashed) := Drive(b.(quota := reserve), ws);
      && ChildResult(b, reserve, ws).calls == r.calls
      && ChildResult(b, reserve, ws).status == if crashed then Error else r.status
  {
  }

  /**
   `_apply_result`. The finishing time is set even for a child that gave up
   unfinished, and exactly then the block is left inconsistent.
   */
  method ApplyResult(pcb: ControlBlock, report: Option<Block>, now: real) returns (completed: bool)
    requires pcb.Valid()
    modifies pcb
    ensures pcb.View() == Applied(old(pcb.View()), report)
    ensures pcb.quota == old(pcb.quota) && pcb.step == old(pcb.step)
    ensures report.None? ==> pcb.calls == old(pcb.calls)
    ensures report.None? ==> pcb.status == if old(IsTerminal(pcb.status)) then old(pcb.status) else Error
    ensures report.Some? ==> pcb.calls == report.value.calls
    ensures report.Some? ==> pcb.status == if old(IsTerminal(pcb.status)) then old(pcb.status) else report.value.status
    ensures completed == report.Some? && pcb.finishedAt.Some?
    ensures pcb.Valid() <==> IsTerminal(pcb.status)
  {
    if report.None? {
      var _, _ := pcb.Transition(Error, now);
      return false;
    }
    pcb.calls := report.value.calls;
    if !IsTerminal(pcb.status) {
      pcb.status := report.value.status;
    }
    if pcb.finishedAt.None? {
      pcb.finishedAt := Some(now);
    }
    return true;
  }

  /** Fork a copy, drive it, and return what it would report. */
  method RunChild(pcb: ControlBlock, worlds: seq<World>, now: real) returns (r: Block)
    requires pcb.Valid() && pcb.quota >= 0
    ensures r == ChildResult(pcb.View(), pcb.quota, worlds)
  {
    var child := new ControlBlock.Fork(pcb);
    var crashed := DriveAgent(child, worlds, now);
    r := child.View();
    if crashed {
      r := r.(status := Error);
    }
  }

  function AfterKill(b: Block, killed: bool): Block {
    if killed then With(b, Zombie) else b
  }

  /**
   A dry budget charges nothing and requeues the agent unless it is finished. Otherwise the budget is
   charged what the child called if it reported, and the whole reservation if
   it did not; a block killed meanwhile keeps that status.
   */
  method RunInProcess(
      pcb: ControlBlock, quota: Quota, queue: ReadyQueue, worlds: seq<World>, killed: bool, died: bool, now: real)
      returns (forked: bool, ghost charged: nat)
    requires pcb.Valid() && quota.remaining <= quota.total
    modifies pcb, quota`remaining, queue`q
    ensures forked == !Dry(Grant(old(quota.Value()), old(pcb.quota)), old(pcb.quota))
    ensures !forked ==> charged == 0 && pcb.View() == With(old(pcb.View()), Ready)
    ensures pcb.Valid() <==> !forked || IsTerminal(pcb.status)
    ensures queue.q == if forked || IsTerminal(pcb.status) then old(queue.q) else old(queue.q) + [pcb]
    ensures forked ==>
      var b, reserve := old(pcb.View()), Grant(old(quota.Value()), old(pcb.quota));
      var r := ChildResult(b, reserve, worlds);
      && r.calls - b.calls <= charged <= reserve
      && charged == (if died then reserve else r.calls - b.calls)
      && pcb.View()
         == Applied(AfterKill(b, killed), if died then None else Some(r)).(quota := Max(0, b.quota - charged))
    ensures forked ==>
      var r := ChildResult(old(pcb.View()), Grant(old(quota.Value()), old(pcb.quota)), worlds);
      && pcb.step == old(pcb.step)
      && pcb.calls == (if died then old(pcb.calls) else r.calls)
      && pcb.status == (if old(IsTerminal(pcb.status)) then old(pcb.status)
                        else if killed then Zombie
                        else if died then Error else r.status)
    ensures quota.Value() == Take(old(quota.Value()), charged)
  {
    var orig, before := pcb.quota, pcb.calls;
    ghost var start := pcb.View();
    var reserve := quota.AcquireUpTo(orig);
    if reserve <= 0 && orig > 0 {
      var _, _ := pcb.Transition(Blocked, now);
      var _ := queue.Put(pcb, now);
      return false, 0;
    }
    pcb.quota := reserve;
    var r := RunChild(pcb, worlds, now);
    ChildSpendsAtMostTheReservation(start, reserve, worlds);
    assert r == ChildResult(start, reserve, worlds);
    if killed {
      var _, _ := pcb.Transition(Zombie, now);
    }
    var completed := ApplyResult(pcb, if died then None else Some(r), now);
    var made := Max(0, pcb.calls - before);
    if completed {
      if reserve > made {
        quota.GiveBack(reserve - made);
      }
      pcb.quota := Max(0, orig - made);
      charged := made;
    } else {
      pcb.quota := Max(0, orig - reserve);
      charged := reserve;
    }
    forked := true;
  }
}
