/**
 The kernel operations on the process tree: spawn, kill and reap_terminal of
 gcos/kernel/kernel.py and reap_descendants of gcos/kernel/process_tree.py, as
 they update the table, and whole histories of them mixed with the transitions
 that workers, spawners and reports make.
 */
module Kernels {
  import opened Basics
  import opened Agents
  import opened ProcessTree
  import opened Ancestry
  import Dispatch

  // ----- kill and reap -----

  /** Same agents and same links; only statuses may differ. */
  ghost predicate SameShape(t: Table, t': Table) {
    t.Keys == t'.Keys && forall x :: x in t ==> t'[x].parent == t[x].parent && t'[x].children == t[x].children
  }

  lemma {:induction false} ShapeDecides(t: Table, t': Table, root: Pid, x: Pid)
    requires SameShape(t, t')
    ensures IsDescendant(t, root, x) <==> IsDescendant(t', root, x)
    decreases x
  {
    forall p | 0 <= p < x
      ensures IsChild(t, p, x) <==> IsChild(t', p, x)
      ensures IsDescendant(t, root, p) <==> IsDescendant(t', root, p)
    {
      ShapeDecides(t, t', root, p);
    }
  }

  lemma {:induction false} ShapeKeepsLinks(t: Table, t': Table, next: Pid)
    requires SameShape(t, t') && Links(t, next)
    ensures Links(t', next) && (Forest(t, next) ==> Forest(t', next))
  {
    assert forall p: Pid, c: Pid :: IsChild(t', p, c) ==> IsChild(t, p, c);
    assert forall p: Pid :: SelfNamed(t', p) ==> SelfNamed(t, p);
  }

  /** The victim and everything below it. */
  predicate IsVictim(t: Table, pid: Pid, x: Pid) {
    x == pid || IsDescendant(t, pid, x)
  }

  function KilledTable(t: Table, pid: Pid): Table {
    map x | x in t :: if IsVictim(t, pid, x) then t[x].(status := Move(t[x].status, Zombie)) else t[x]
  }

  function ReapedTable(t: Table): Table {
    map x | x in t && !IsTerminal(t[x].status) :: t[x]
  }

  /** Exactly the unfinished agents stay, as they were. */
  lemma {:induction false} ReapKeepsTheUnfinished(t: Table, x: Pid)
    ensures x in ReapedTable(t) <==> x in t && t[x].status !in {Done, Timeout, Error, Zombie}
    ensures x in ReapedTable(t) ==> ReapedTable(t)[x] == t[x]
  {
  }

  /** A kill changes statuses only, and only of the victim and its unfinished descendants. */
  lemma {:induction false} KillMarksTheSubtree(t: Table, pid: Pid, x: Pid)
    ensures x in KilledTable(t, pid) <==> x in t
    ensures x in t ==>
              var n, n' := t[x], KilledTable(t, pid)[x];
              && n'.parent == n.parent && n'.children == n.children
              && n'.status == (if (x == pid || IsDescendant(t, pid, x)) && n.status !in {Done, Timeout, Error, Zombie}
                               then Zombie else n.status)
  {
  }

  lemma {:induction false} ReapKeepsLinks(t: Table, next: Pid)
    requires Links(t, next)
    ensures Links(ReapedTable(t), next) && (Forest(t, next) ==> Forest(ReapedTable(t), next))
  {
    var t' := ReapedTable(t);
    assert forall p: Pid, c: Pid :: IsChild(t', p, c) ==> IsChild(t, p, c);
    assert forall p: Pid :: SelfNamed(t', p) ==> SelfNamed(t, p);
  }

  lemma {:induction false} KilledInTwoSteps(t: Table, t1: Table, t2: Table, pid: Pid)
    requires pid in t && t1 == t[pid := t[pid].(status := Move(t[pid].status, Zombie))] && SameShape(t1, t2)
    requires forall x :: x in t2 ==>
               t2[x].status == if IsDescendant(t1, pid, x) then Move(t1[x].status, Zombie) else t1[x].status
    ensures t2 == KilledTable(t, pid)
  {
    forall x | x in t
      ensures t2[x] == KilledTable(t, pid)[x]
    {
      ShapeDecides(t, t1, pid, x);
    }
  }

  function Finished(t: Table): set<Pid> {
    set x | x in t && IsTerminal(t[x].status)
  }

  function Unfinished(t: Table, xs: seq<Pid>): set<Pid> {
    set x | x in xs && x in t && !IsTerminal(t[x].status)
  }

  lemma {:induction false} UnfinishedMore(t: Table, xs: seq<Pid>, x: Pid)
    requires x !in xs && x in t
    ensures |Unfinished(t, xs + [x])| == |Unfinished(t, xs)| + if IsTerminal(t[x].status) then 0 else 1
  {
    if IsTerminal(t[x].status) {
      assert Unfinished(t, xs + [x]) == Unfinished(t, xs);
    } else {
      assert Unfinished(t, xs + [x]) == Unfinished(t, xs) + {x};
    }
  }

  lemma {:induction false} RemoveAt(q: seq<Pid>, i: nat, pid: Pid)
    requires i <= |q| && pid !in q[..i] && (i < |q| ==> q[i] == pid)
    ensures Dispatch.Remove(q, pid) == if i < |q| then q[..i] + q[i + 1..] else q
  {
    if i > 0 {
      assert q[0] in q[..i];
      assert forall x :: x in q[1..][..i - 1] ==> x in q[..i];
      RemoveAt(q[1..], i - 1, pid);
    }
  }

  predicate CanKill(t: Table, pid: Pid) {
    pid in t && !IsTerminal(t[pid].status)
  }

  class Kernel {
    var table: Table
    var nextPid: Pid
    var queue: seq<Pid>
    var mailboxes: set<Pid>

    ghost predicate Valid()
      reads this
    {
      Links(table, nextPid)
    }

    constructor ()
      ensures Valid() && table == map[] && nextPid == 1 && queue == [] && mailboxes == {}
    {
      table, nextPid, queue, mailboxes := map[], 1, [], {};
    }

    method Spawn(parent: Option<Pid>) returns (pid: Pid)
      requires Valid()
      modifies this
      ensures pid == old(nextPid) && nextPid == pid + 1
      ensures table == Spawned(old(table), pid, parent)
      ensures queue == old(queue) + [pid] && mailboxes == old(mailboxes)
      ensures Valid()
    {
      pid := nextPid;
      SpawnKeepsLinks(table, pid, parent);
      nextPid := nextPid + 1;
      table := table[pid := Node(parent, [], Ready)];
      if parent.Some? && parent.value in table {
        var p := table[parent.value];
        table := table[parent.value := p.(children := p.children + [pid])];
      }
      queue := queue + [pid];
    }

    /** Marks each listed agent ZOMBIE unless it is already finished; the count of those marked. */
    method ReapAll(xs: seq<Pid>) returns (n: nat)
      requires Distinct(xs) && forall i :: 0 <= i < |xs| ==> xs[i] in table
      modifies this`table
      ensures SameShape(old(table), table)
      ensures forall x :: x in table ==>
                table[x].status == if x in xs then Move(old(table)[x].status, Zombie) else old(table)[x].status
      ensures n == |Unfinished(old(table), xs)|
    {
      n := 0;
      for i := 0 to |xs|
        invariant n == |Unfinished(old(table), xs[..i])| && SameShape(old(table), table)
        invariant forall x :: x in table ==>
                    table[x].status == if x in xs[..i] then Move(old(table)[x].status, Zombie) else old(table)[x].status
      {
        var x := xs[i];
        assert xs[..i + 1] == xs[..i] + [x];
        assert x !in xs[..i];
        UnfinishedMore(old(table), xs[..i], x);
        if !IsTerminal(table[x].status) {
          table := table[x := table[x].(status := Zombie)];
          n := n + 1;
        }
      }
      assert xs[..|xs|] == xs;
    }

    /** `queue.pop(pcb)`: removes the first occurrence, if any. */
    method Unqueue(pid: Pid)
      modifies this`queue
      ensures queue == Dispatch.Remove(old(queue), pid)
    {
      var i := 0;
      while i < |queue| && queue[i] != pid
        invariant i <= |queue| && pid !in queue[..i]
      {
        i := i + 1;
      }
      RemoveAt(queue, i, pid);
      if i < |queue| {
        queue := queue[..i] + queue[i + 1..];
      }
    }

    /** `reap_descendants`: exactly the unfinished descendants, and their number. */
    method ReapDescendants(pid: Pid) returns (n: nat)
      requires Valid() && !SelfNamed(table, pid)
      modifies this`table
      ensures Valid() && SameShape(old(table), table)
      ensures forall x :: x in table ==>
                table[x].status == if IsDescendant(old(table), pid, x) then Move(old(table)[x].status, Zombie)
                                   else old(table)[x].status
      ensures n == |set x | x in old(table) && IsDescendant(old(table), pid, x) && !IsTerminal(old(table)[x].status)|
    {
      var below := DescendantsOf(table, nextPid, pid);
      n := ReapAll(below);
      ShapeKeepsLinks(old(table), table, nextPid);
      assert Unfinished(old(table), below)
          == set x | x in old(table) && IsDescendant(old(table), pid, x) && !IsTerminal(old(table)[x].status);
    }

    /**
     Refused for unknown and finished agents; otherwise the whole subtree is
     finished, and nothing else touched. It does not return for an agent that named itself.
     */
    method Kill(pid: Pid) returns (ok: bool)
      requires Valid() && (CanKill(table, pid) ==> !SelfNamed(table, pid))
      modifies this
      ensures Valid() && nextPid == old(nextPid)
      ensures ok <==> CanKill(old(table), pid)
      ensures table == if ok then KilledTable(old(table), pid) else old(table)
      ensures forall x :: x in mailboxes <==> x in old(mailboxes) && !(ok && IsVictim(old(table), pid, x))
      ensures queue == if ok then Dispatch.Remove(old(queue), pid) else old(queue)
    {
      if pid !in table || IsTerminal(table[pid].status) {
        return false;
      }
      var below := DescendantsOf(table, nextPid, pid);
      FinishSubtree(pid);
      mailboxes := mailboxes - ({pid} + set x | x in below);
      return true;
    }

    method FinishSubtree(pid: Pid)
      requires Valid() && CanKill(table, pid) && !SelfNamed(table, pid)
      modifies this`table, this`queue
      ensures Valid() && table == KilledTable(old(table), pid) && queue == Dispatch.Remove(old(queue), pid)
    {
      ghost var t := table;
      table := table[pid := table[pid].(status := Move(table[pid].status, Zombie))];
      ghost var t1 := table;
      ShapeKeepsLinks(t, t1, nextPid);
      Unqueue(pid);
      var _ := ReapDescendants(pid);
      KilledInTwoSteps(t, t1, table, pid);
    }

    method ReapTerminal() returns (n: nat)
      modifies this`table, this`mailboxes
      ensures n == |Finished(old(table))|
      ensures table == ReapedTable(old(table)) && (old(Valid()) ==> Valid())
      ensures mailboxes == set x | x in old(mailboxes) && !(x in old(table) && IsTerminal(old(table)[x].status))
    {
      if Links(table, nextPid) {
        ReapKeepsLinks(table, nextPid);
      }
      var dead := Finished(table);
      table := table - dead;
      mailboxes := mailboxes - dead;
      n := |dead|;
    }
  }

  // ----- whole histories -----

  /** `DoWrite` is any `transition` by anybody: a worker, a spawner, a child's report. */
  datatype TreeOp = DoSpawn(parent: Option<Pid>) | DoWrite(pid: Pid, status: Status) | DoKill(pid: Pid) | DoReap

  datatype Tree = Tree(table: Table, next: Pid)

  function Written(t: Table, pid: Pid, status: Status): Table {
    if pid in t then t[pid := t[pid].(status := Move(t[pid].status, status))] else t
  }

  function ApplyTree(s: Tree, op: TreeOp): Tree {
    match op
    case DoSpawn(parent) => Tree(Spawned(s.table, s.next, parent), s.next + 1)
    case DoWrite(pid, status) => s.(table := Written(s.table, pid, status))
    case DoKill(pid) =>
      if CanKill(s.table, pid) && !SelfNamed(s.table, pid) then s.(table := KilledTable(s.table, pid)) else s
    case DoReap => s.(table := ReapedTable(s.table))
  }

  function History(s: Tree, ops: seq<TreeOp>): Tree
    decreases |ops|
  {
    if ops == [] then s else History(ApplyTree(s, ops[0]), ops[1..])
  }

  lemma {:induction false} OpKeepsLinks(s: Tree, op: TreeOp)
    requires Links(s.table, s.next)
    ensures Links(ApplyTree(s, op).table, ApplyTree(s, op).next)
  {
    match op
    case DoSpawn(parent) => SpawnKeepsLinks(s.table, s.next, parent);
    case DoWrite(pid, status) => ShapeKeepsLinks(s.table, Written(s.table, pid, status), s.next);
    case DoKill(pid) => ShapeKeepsLinks(s.table, KilledTable(s.table, pid), s.next);
    case DoReap => ReapKeepsLinks(s.table, s.next);
  }

  /** After any history whatever, `descendants_of` ends for every agent that did not name itself. */
  lemma {:induction false} HistoryKeepsLinks(s: Tree, ops: seq<TreeOp>)
    requires Links(s.table, s.next)
    ensures Links(History(s, ops).table, History(s, ops).next)
    decreases |ops|
  {
    if ops != [] {
      OpKeepsLinks(s, ops[0]);
      HistoryKeepsLinks(ApplyTree(s, ops[0]), ops[1..]);
    }
  }

  /** No spawn names a chain of parents that leads to its own PID. */
  ghost predicate NeverLedBack(s: Tree, ops: seq<TreeOp>)
    decreases |ops|
  {
    ops == [] ||
    (!(ops[0].DoSpawn? && ops[0].parent.Some? && LeadsTo(s.table, ops[0].parent.value, s.next)) &&
     NeverLedBack(ApplyTree(s, ops[0]), ops[1..]))
  }

  /** `ancestors_of` ends for everybody, now and after every operation. */
  ghost predicate AlwaysGrounded(s: Tree, ops: seq<TreeOp>)
    decreases |ops|
  {
    Grounded(s.table) && (ops == [] || AlwaysGrounded(ApplyTree(s, ops[0]), ops[1..]))
  }

  /** It always ends if and only if no spawn names a chain of parents that leads to its own PID. */
  lemma {:induction false} AlwaysGroundedExactlyWhen(s: Tree, ops: seq<TreeOp>)
    requires Links(s.table, s.next) && Grounded(s.table)
    ensures AlwaysGrounded(s, ops) <==> NeverLedBack(s, ops)
    decreases |ops|
  {
    if ops != [] {
      var s' := ApplyTree(s, ops[0]);
      OpKeepsLinks(s, ops[0]);
      if ops[0].DoSpawn? {
        SpawnKeepsGrounded(s.table, s.next, ops[0].parent);
      } else {
        FewerKeepsGrounded(s.table, s'.table);
      }
      if Grounded(s'.table) {
        AlwaysGroundedExactlyWhen(s', ops[1..]);
      }
    }
  }

  /** Every spawn names no parent, or a PID handed out before. */
  predicate NamesOlderParents(s: Tree, ops: seq<TreeOp>)
    decreases |ops|
  {
    ops == [] ||
    ((ops[0].DoSpawn? && ops[0].parent.Some? ==> ops[0].parent.value < s.next) &&
     NamesOlderParents(ApplyTree(s, ops[0]), ops[1..]))
  }

  lemma {:induction false} OpKeepsForest(s: Tree, op: TreeOp)
    requires Forest(s.table, s.next) && (op.DoSpawn? && op.parent.Some? ==> op.parent.value < s.next)
    ensures Forest(ApplyTree(s, op).table, ApplyTree(s, op).next)
  {
    match op
    case DoSpawn(parent) => SpawnKeepsForest(s.table, s.next, parent);
    case DoWrite(pid, status) => ShapeKeepsLinks(s.table, Written(s.table, pid, status), s.next);
    case DoKill(pid) => ShapeKeepsLinks(s.table, KilledTable(s.table, pid), s.next);
    case DoReap => ReapKeepsLinks(s.table, s.next);
  }

  /** Then the children relation is a forest after any mix of spawns, transitions, kills and reaps. */
  lemma {:induction false} HistoryIsForest(s: Tree, ops: seq<TreeOp>)
    requires Forest(s.table, s.next) && NamesOlderParents(s, ops)
    ensures Forest(History(s, ops).table, History(s, ops).next)
    decreases |ops|
  {
    if ops != [] {
      OpKeepsForest(s, ops[0]);
      HistoryIsForest(ApplyTree(s, ops[0]), ops[1..]);
    }
  }

  lemma {:induction false} OpKeepsFinished(s: Tree, op: TreeOp, x: Pid)
    requires x < s.next && (x in s.table ==> IsTerminal(s.table[x].status))
    ensures var t := ApplyTree(s, op).table;
      x < ApplyTree(s, op).next && (x in t ==> x in s.table && t[x].status == s.table[x].status)
  {
  }

  /** A finished agent keeps its status for as long as it is registered, whoever writes. */
  lemma {:induction false} FinishedForever(s: Tree, ops: seq<TreeOp>, x: Pid)
    requires x < s.next && (x in s.table ==> IsTerminal(s.table[x].status))
    ensures var t := History(s, ops).table;
      x in t ==> x in s.table && t[x].status == s.table[x].status
    decreases |ops|
  {
    if ops != [] {
      OpKeepsFinished(s, ops[0], x);
      FinishedForever(ApplyTree(s, ops[0]), ops[1..], x);
    }
  }

  /** After a kill, the victim and everything registered below it are finished for good, whoever writes. */
  lemma {:induction false} KillIsForever(s: Tree, pid: Pid, ops: seq<TreeOp>, x: Pid)
    requires Links(s.table, s.next) && CanKill(s.table, pid) && !SelfNamed(s.table, pid)
    requires x in s.table && IsVictim(s.table, pid, x)
    ensures var t := History(s, [DoKill(pid)] + ops).table;
      x in t ==> IsTerminal(t[x].status) && (!IsTerminal(s.table[x].status) ==> t[x].status == Zombie)
  {
    var all := [DoKill(pid)] + ops;
    assert all[1..] == ops;
    FinishedForever(ApplyTree(s, DoKill(pid)), ops, x);
  }

  // ----- what goes wrong otherwise -----

  lemma {:induction false} TwoSpawns(first: Option<Pid>, second: Option<Pid>)
    ensures var ops := [DoSpawn(first), DoSpawn(second)];
      History(Tree(map[], 1), ops).table == Spawned(Spawned(map[], 1, first), 2, second)
  {
    var ops := [DoSpawn(first), DoSpawn(second)];
    assert ops[1..] == [DoSpawn(second)] && ops[1..][1..] == [];
    var s1 := ApplyTree(Tree(map[], 1), ops[0]);
    assert History(s1, ops[1..]) == ApplyTree(s1, DoSpawn(second));
  }

  /** Two agents, the first naming the second before it exists: `ancestors_of` never ends. */
  lemma {:induction false} NamingEachOtherLoops(n: nat)
    ensures Up(History(Tree(map[], 1), [DoSpawn(Some(2)), DoSpawn(Some(1))]).table, 1, n).Some?
  {
    TwoSpawns(Some(2), Some(1));
    var t := Spawned(Spawned(map[], 1, Some(2)), 2, Some(1));
    assert Up(t, 1, 2) == Some(1);
    CycleNeverEnds(t, 1, 2, n);
  }

  /** A future PID alone does no harm: here the walk up from the first agent ends at the second. */
  lemma {:induction false} NamingAFuturePidMayEnd()
    ensures var t := History(Tree(map[], 1), [DoSpawn(Some(2)), DoSpawn(None)]).table;
      Up(t, 1, 1) == Some(2) && Up(t, 1, 2).None?
  {
    TwoSpawns(Some(2), None);
  }
}
