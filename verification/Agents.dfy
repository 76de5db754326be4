/**
 Agent control blocks (gcos/kernel/pcb.py): the status machine with absorbing
 terminal states, and the mutable control block whose `Transition` realises it.
 Time is an abstract clock reading passed in by the caller.
 */
module Agents {
  import opened Basics

  datatype Status = New | Ready | Running | Waiting | Blocked | Done | Timeout | Error | Zombie

  predicate IsTerminal(s: Status) {
    s.Done? || s.Timeout? || s.Error? || s.Zombie?
  }

  /** The status after `transition(t)`: terminal statuses absorb every request. */
  function Move(s: Status, t: Status): Status {
    if IsTerminal(s) then s else t
  }

  /** The documented transition graph. An edge outside it is still taken, but logged as unexpected. */
  predicate Legal(s: Status, t: Status) {
    match s
    case New => t.Ready? || t.Waiting? || t.Running? || t.Zombie?
    case Ready => !t.New? && !t.Ready?
    case Running => !t.New? && !t.Running?
    case Waiting => !t.New? && !t.Waiting?
    case Blocked => !t.New? && !t.Blocked?
    case _ => false
  }

  /** The graph: nobody leaves a terminal status or returns to NEW, and a new agent cannot fail or finish. */
  lemma {:induction false} LegalMoves(s: Status, t: Status)
    ensures Legal(s, t) <==>
            s != t && t != New && s !in {Done, Timeout, Error, Zombie}
            && (s == New ==> t in {Ready, Waiting, Running, Zombie})
    ensures IsTerminal(s) <==> s in {Done, Timeout, Error, Zombie}
  {
  }

  /** The statuses that absorb are exactly those without a way out. */
  lemma {:induction false} TerminalMeansNoWayOut(s: Status)
    ensures IsTerminal(s) <==> forall t :: !Legal(s, t)
    ensures IsTerminal(s) <==> forall t :: Move(s, t) == s
  {
    assert Move(s, Zombie) == Zombie || IsTerminal(s);
    assert s != New && s != Ready && !IsTerminal(s) ==> Legal(s, Ready);
    assert s == New || s == Ready ==> Legal(s, Running);
    assert Move(s, Running) == Running || IsTerminal(s);
  }

  /** Plain chat and the coder make one call; a React agent makes one call per tool step. */
  datatype Kind = Plain | Coder | React(maxToolCalls: int)

  /** The part of a control block that the step runner reads and writes. */
  datatype Block = Block(kind: Kind, status: Status, quota: int, calls: nat, step: nat)

  class ControlBlock {
    const pid: nat
    const kind: Kind
    const priority: int
    const pipeTo: Option<nat>
    const createdAt: real
    var status: Status
    var quota: int
    var calls: nat
    var step: nat
    /** The prompt still has a placeholder for upstream input. */
    var needsInput: bool
    var waitingSince: Option<real>
    var startedAt: Option<real>
    var finishedAt: Option<real>

    /** Timestamps follow the status: an agent has finished exactly when it is terminal. */
    ghost predicate Valid()
      reads this
    {
      && (finishedAt.Some? <==> IsTerminal(status))
      && (status.Running? ==> startedAt.Some?)
    }

    function View(): Block
      reads this
    {
      Block(kind, status, quota, calls, step)
    }

    constructor (
        pid: nat, kind: Kind, priority: int, quota: int, needsInput: bool, pipeTo: Option<nat>, now: real)
      ensures Valid() && View() == Block(kind, New, quota, 0, 0)
      ensures this.pid == pid && this.priority == priority && createdAt == now && startedAt.None?
      ensures this.needsInput == needsInput && waitingSince.None? && this.pipeTo == pipeTo
    {
      this.pid, this.needsInput, this.waitingSince, this.pipeTo := pid, needsInput, None, pipeTo;
      this.kind, this.priority, this.createdAt := kind, priority, now;
      this.status, this.quota, this.calls, this.step := New, quota, 0, 0;
      this.startedAt, this.finishedAt := None, None;
    }

    /** The copy that a forked child works on. */
    constructor Fork(that: ControlBlock)
      requires that.Valid()
      ensures Valid() && View() == that.View() && pid == that.pid && pipeTo == that.pipeTo
    {
      this.pid, this.needsInput, this.pipeTo := that.pid, that.needsInput, that.pipeTo;
      this.waitingSince := that.waitingSince;
      this.kind, this.priority, this.createdAt := that.kind, that.priority, that.createdAt;
      this.status, this.quota, this.calls, this.step := that.status, that.quota, that.calls, that.step;
      this.startedAt, this.finishedAt := that.startedAt, that.finishedAt;
    }

    /** `flagged` is the "unexpected transition" warning. Both timestamps are written at most once. */
    method Transition(t: Status, now: real) returns (moved: bool, flagged: bool)
      requires Valid()
      modifies this`status, this`startedAt, this`finishedAt
      ensures Valid()
      ensures status == Move(old(status), t)
      ensures moved <==> status != old(status)
      ensures flagged <==> moved && !Legal(old(status), t)
      ensures old(startedAt).Some? ==> startedAt == old(startedAt)
      ensures old(startedAt).None? && startedAt.Some? ==> startedAt == Some(now) && status.Running?
      ensures old(finishedAt).Some? ==> finishedAt == old(finishedAt)
      ensures old(finishedAt).None? && finishedAt.Some? ==> finishedAt == Some(now)
    {
      moved, flagged := false, false;
      if t == status || IsTerminal(status) {
        return;
      }
      flagged := !Legal(status, t);
      if t.Running? && startedAt.None? {
        startedAt := Some(now);
      }
      if IsTerminal(t) {
        finishedAt := Some(now);
      }
      status := t;
      moved := true;
    }
  }
}
