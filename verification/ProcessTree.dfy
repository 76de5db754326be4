/**
 The process tree (gcos/kernel/process_tree.py and the linking in spawn of
 gcos/kernel/kernel.py): child links and walking down. PIDs come from a counter
 and are never reused.
 */
module ProcessTree {
  import opened Basics
  import opened Agents

  type Pid = nat

  datatype Node = Node(parent: Option<Pid>, children: seq<Pid>, status: Status)

  type Table = map<Pid, Node>

  // ----- spawn -----

  /** The new agent enters the table before its parent is looked up, so it can find itself. */
  function Spawned(t: Table, pid: Pid, parent: Option<Pid>): Table {
    var t1 := t[pid := Node(parent, [], Ready)];
    if parent.Some? && parent.value in t1 then
      var p := t1[parent.value];
      t1[parent.value := p.(children := p.children + [pid])]
    else t1
  }

  /** The newcomer is READY and childless, its parent if registered lists it last, and nobody else changes. */
  lemma {:induction false} SpawnRegistersAndLinks(t: Table, pid: Pid, parent: Option<Pid>, x: Pid)
    requires pid !in t
    ensures var t' := Spawned(t, pid, parent);
      && (x in t' <==> x in t || x == pid)
      && (x in t' ==>
            && t'[x].parent == (if x == pid then parent else t[x].parent)
            && t'[x].status == (if x == pid then Ready else t[x].status)
            && t'[x].children == (if x == pid then [] else t[x].children) + if parent == Some(x) then [pid] else [])
  {
  }

  /** p lists c as a child, and c is registered. */
  predicate IsChild(t: Table, p: Pid, c: Pid) {
    p in t && c in t && c in t[p].children
  }

  /** The agent named itself as its parent. */
  predicate SelfNamed(t: Table, p: Pid) {
    p in t && t[p].parent == Some(p)
  }

  /**
   What holds after any spawns at all: child links lead to younger agents, or
   from a self-named agent to itself, and a listed child names its lister.
   */
  ghost predicate Links(t: Table, next: Pid) {
    && (forall p :: p in t ==> p < next && Distinct(t[p].children))
    && (forall p, c :: p in t && c in t[p].children ==> p <= c < next)
    && (forall p: Pid, c: Pid :: IsChild(t, p, c) ==> t[c].parent == Some(p))
    && (forall p: Pid :: SelfNamed(t, p) ==> p in t[p].children)
  }

  lemma {:induction false} SpawnKeepsLinks(t: Table, next: Pid, parent: Option<Pid>)
    requires Links(t, next)
    ensures Links(Spawned(t, next, parent), next + 1)
  {
    var t' := Spawned(t, next, parent);
    forall p | p in t'
      ensures Distinct(t'[p].children) && forall c :: c in t'[p].children ==> p <= c < next + 1
    {
      if p != next && parent == Some(p) {
        assert next !in t[p].children;
      }
    }
    forall p: Pid, c: Pid | IsChild(t', p, c)
      ensures t'[c].parent == Some(p)
    {
      assert c != next && p != next ==> IsChild(t, p, c);
    }
  }

  /** The well-behaved case: parents are older than children, and links agree both ways. */
  ghost predicate Forest(t: Table, next: Pid) {
    && Links(t, next)
    && (forall c :: c in t && t[c].parent.Some? ==> t[c].parent.value < c)
    && (forall c :: c in t && t[c].parent.Some? && t[c].parent.value in t ==> c in t[t[c].parent.value].children)
  }

  /** Spawning keeps the forest exactly when it names no parent or a PID handed out before. */
  lemma {:induction false} SpawnKeepsForest(t: Table, next: Pid, parent: Option<Pid>)
    requires Forest(t, next)
    ensures Forest(Spawned(t, next, parent), next + 1) <==> (parent.None? || parent.value < next)
  {
    SpawnKeepsLinks(t, next, parent);
    assert next in Spawned(t, next, parent) && Spawned(t, next, parent)[next].parent == parent;
  }

  // ----- walking down -----

  /**
   x is reached from root by following child links through registered agents.
   Links never lead to older agents, so only steps of a self-named agent to itself are ignored.
   */
  predicate IsDescendant(t: Table, root: Pid, x: Pid)
    decreases x
  {
    exists p :: 0 <= p < x && IsChild(t, p, x) && (p == root || IsDescendant(t, root, p))
  }

  /** `children_of`. */
  function ChildrenOf(t: Table, pid: Pid): seq<Pid> {
    if pid in t then Registered(t, t[pid].children) else []
  }

  function Registered(t: Table, cs: seq<Pid>): seq<Pid> {
    if cs == [] then []
    else if cs[0] in t then [cs[0]] + Registered(t, cs[1..])
    else Registered(t, cs[1..])
  }

  lemma {:induction false} RegisteredIn(t: Table, cs: seq<Pid>)
    ensures forall c :: c in Registered(t, cs) <==> c in cs && c in t
    ensures Distinct(cs) ==> Distinct(Registered(t, cs))
  {
    if cs != [] {
      RegisteredIn(t, cs[1..]);
    }
  }

  predicate Among(x: Pid, root: Pid, out: seq<Pid>) {
    x == root || x in out
  }

  /** Everything found so far hangs below the root. */
  ghost predicate Hanging(t: Table, root: Pid, out: seq<Pid>, found: seq<Pid>) {
    forall x :: x in found ==>
      x in t && IsDescendant(t, root, x) && t[x].parent.Some? && Among(t[x].parent.value, root, out)
  }

  /** The children of everything visited have been found. */
  ghost predicate ClosedUnder(t: Table, root: Pid, out: seq<Pid>, found: seq<Pid>) {
    forall p: Pid, c: Pid :: Among(p, root, out) && IsChild(t, p, c) ==> c in found
  }

  lemma {:induction false} ClosedHasAll(t: Table, root: Pid, out: seq<Pid>, x: Pid)
    requires ClosedUnder(t, root, out, out) && IsDescendant(t, root, x)
    ensures x in out
    decreases x
  {
    var p :| 0 <= p < x && IsChild(t, p, x) && (p == root || IsDescendant(t, root, p));
    if p != root {
      ClosedHasAll(t, root, out, p);
    }
    assert Among(p, root, out);
  }

  lemma {:induction false} DescendantIsYounger(t: Table, root: Pid, x: Pid)
    requires IsDescendant(t, root, x)
    ensures root < x
    decreases x
  {
    var p :| 0 <= p < x && IsChild(t, p, x) && (p == root || IsDescendant(t, root, p));
    if p != root {
      DescendantIsYounger(t, root, p);
    }
  }

  /** The state of the walk: `out` has been visited, `stack` has been found. */
  ghost predicate Walk(t: Table, root: Pid, out: seq<Pid>, stack: seq<Pid>) {
    Distinct(out + stack) && Hanging(t, root, out, out + stack) && ClosedUnder(t, root, out, out + stack)
  }

  lemma {:induction false} TopIsNew(t: Table, root: Pid, out: seq<Pid>, rest: seq<Pid>, cur: Pid)
    requires Walk(t, root, out, rest + [cur])
    ensures cur in t && cur !in out
  {
    var found := out + (rest + [cur]);
    assert found[|out| + |rest|] == cur;
    assert cur in found;
    assert forall i :: 0 <= i < |out| ==> found[i] == out[i];
  }

  /** Visiting one agent: its children are new, and hang below it. */
  lemma {:induction false} VisitStep(t: Table, next: Pid, root: Pid, out: seq<Pid>, rest: seq<Pid>, cur: Pid)
    requires Links(t, next) && Walk(t, root, out, rest + [cur])
    ensures Walk(t, root, out + [cur], rest + ChildrenOf(t, cur))
  {
    var found := out + (rest + [cur]);
    var out', kids := out + [cur], ChildrenOf(t, cur);
    var found' := out' + (rest + kids);
    TopIsNew(t, root, out, rest, cur);
    assert found[|out| + |rest|] == cur;
    RegisteredIn(t, t[cur].children);
    DescendantIsYounger(t, root, cur);
    assert !Among(cur, root, out);
    forall x | x in kids
      ensures x !in found && IsDescendant(t, root, x) && t[x].parent == Some(cur)
    {
      assert IsChild(t, cur, x);
    }
    DistinctSplit(out, rest, cur, kids);
    FoundGrows(out, rest, cur, kids);
    assert Hanging(t, root, out', found') by {
      assert forall x :: Among(x, root, out) ==> Among(x, root, out');
      assert Among(cur, root, out');
    }
    forall p: Pid, c: Pid | Among(p, root, out') && IsChild(t, p, c)
      ensures c in found'
    {
      if !Among(p, root, out) {
        assert p == cur;
      }
    }
  }

  lemma {:induction false} FoundGrows(out: seq<Pid>, rest: seq<Pid>, cur: Pid, kids: seq<Pid>)
    ensures forall x :: x in (out + [cur]) + (rest + kids) <==> x in out + (rest + [cur]) || x in kids
  {
  }

  lemma {:induction false} DistinctSplit(out: seq<Pid>, rest: seq<Pid>, cur: Pid, kids: seq<Pid>)
    requires Distinct(out + (rest + [cur])) && Distinct(kids)
    requires forall x :: x in kids ==> x !in out + (rest + [cur])
    ensures Distinct((out + [cur]) + (rest + kids))
  {
    var a, b := out + (rest + [cur]), (out + [cur]) + (rest + kids);
    var n, m := |out|, |rest|;
    forall i, j | 0 <= i < j < |b|
      ensures b[i] != b[j]
    {
      var at := (k: int) => if k < n then k else if k == n then n + m else k - 1;
      assert i <= n + m ==> b[i] == a[at(i)];
      if j <= n + m {
        assert b[j] == a[at(j)] && at(i) != at(j);
      } else {
        assert b[j] == kids[j - n - 1 - m] && b[j] in kids;
        if i <= n + m {
          assert b[i] in a;
        } else {
          assert b[i] == kids[i - n - 1 - m];
        }
      }
    }
  }

  /** `descendants_of`: unless the agent named itself, the loop ends and returns each reachable agent exactly once. */
  method DescendantsOf(t: Table, next: Pid, pid: Pid) returns (out: seq<Pid>)
    requires Links(t, next) && !SelfNamed(t, pid)
    ensures Distinct(out)
    ensures forall x :: x in out <==> IsDescendant(t, pid, x)
    ensures forall x :: x in out ==> x in t
  {
    out := [];
    var stack := ChildrenOf(t, pid);
    StartOk(t, next, pid);
    ghost var unseen := t.Keys;
    while stack != []
      invariant Walk(t, pid, out, stack)
      invariant unseen == t.Keys - set x | x in out
      decreases unseen
    {
      var n := |stack| - 1;
      var cur := stack[n];
      assert stack == stack[..n] + [cur];
      TopIsNew(t, pid, out, stack[..n], cur);
      VisitStep(t, next, pid, out, stack[..n], cur);
      unseen := unseen - {cur};
      out := out + [cur];
      stack := stack[..n] + ChildrenOf(t, cur);
    }
    WalkEnds(t, pid, out);
  }

  lemma {:induction false} WalkEnds(t: Table, root: Pid, out: seq<Pid>)
    requires Walk(t, root, out, [])
    ensures Distinct(out) && forall x :: x in out <==> IsDescendant(t, root, x)
    ensures forall x :: x in out ==> x in t
  {
    assert out + [] == out;
    forall x | IsDescendant(t, root, x)
      ensures x in out
    {
      ClosedHasAll(t, root, out, x);
    }
  }

  lemma {:induction false} StartOk(t: Table, next: Pid, pid: Pid)
    requires Links(t, next) && !SelfNamed(t, pid)
    ensures Walk(t, pid, [], ChildrenOf(t, pid))
  {
    var found := ChildrenOf(t, pid);
    assert [] + found == found;
    if pid in t {
      RegisteredIn(t, t[pid].children);
      forall x | x in found
        ensures IsDescendant(t, pid, x) && t[x].parent == Some(pid)
      {
        assert IsChild(t, pid, x);
      }
    }
  }

  /** One iteration of the stack loop. */
  function Popped(t: Table, stack: seq<Pid>): seq<Pid>
    requires stack != []
  {
    stack[..|stack| - 1] + ChildrenOf(t, stack[|stack| - 1])
  }

  function StackAfter(t: Table, stack: seq<Pid>, n: nat): seq<Pid>
    decreases n
  {
    if n == 0 || stack == [] then stack else StackAfter(t, Popped(t, stack), n - 1)
  }

  /** A self-named agent puts itself back every time it is popped. */
  lemma {:induction false} StaysOnStack(t: Table, pid: Pid, stack: seq<Pid>, n: nat)
    requires IsChild(t, pid, pid) && pid in stack
    ensures pid in StackAfter(t, stack, n)
    decreases n
  {
    if n > 0 {
      var top := stack[|stack| - 1];
      RegisteredIn(t, t[pid].children);
      assert stack == stack[..|stack| - 1] + [top];
      assert pid in Popped(t, stack);
      StaysOnStack(t, pid, Popped(t, stack), n - 1);
    }
  }

  lemma {:induction false} WalkTerminates(t: Table, next: Pid, root: Pid, out: seq<Pid>, stack: seq<Pid>)
    requires Links(t, next) && Walk(t, root, out, stack)
    ensures exists n: nat :: StackAfter(t, stack, n) == []
    decreases t.Keys - set x | x in out
  {
    if stack == [] {
      assert StackAfter(t, stack, 0) == [];
    } else {
      var k := |stack| - 1;
      var cur := stack[k];
      assert stack == stack[..k] + [cur];
      TopIsNew(t, root, out, stack[..k], cur);
      VisitStep(t, next, root, out, stack[..k], cur);
      assert cur in (t.Keys - set x | x in out) && cur !in (t.Keys - set x | x in out + [cur]);
      WalkTerminates(t, next, root, out + [cur], Popped(t, stack));
      var n: nat :| StackAfter(t, Popped(t, stack), n) == [];
      assert StackAfter(t, stack, n + 1) == [];
    }
  }

  /** The exact condition for `descendants_of`: its loop ends if and only if the agent did not name itself. */
  lemma {:induction false} DescendantsWalkEndsExactlyWhen(t: Table, next: Pid, pid: Pid)
    requires Links(t, next)
    ensures (exists n: nat :: StackAfter(t, ChildrenOf(t, pid), n) == []) <==> !SelfNamed(t, pid)
  {
    if SelfNamed(t, pid) {
      RegisteredIn(t, t[pid].children);
      forall n: nat
        ensures StackAfter(t, ChildrenOf(t, pid), n) != []
      {
        StaysOnStack(t, pid, ChildrenOf(t, pid), n);
      }
    } else {
      StartOk(t, next, pid);
      WalkTerminates(t, next, pid, [], ChildrenOf(t, pid));
    }
  }

  /** The failing input: whatever came before, an agent that names itself is its own child, and the walk never ends. */
  lemma {:induction false} SelfParentIsItsOwnChild(t: Table, next: Pid)
    requires Links(t, next)
    ensures var t' := Spawned(t, next, Some(next));
      && Links(t', next + 1) && SelfNamed(t', next) && IsChild(t', next, next)
      && forall n: nat :: StackAfter(t', ChildrenOf(t', next), n) != []
  {
    SpawnKeepsLinks(t, next, Some(next));
    DescendantsWalkEndsExactlyWhen(Spawned(t, next, Some(next)), next + 1, next);
  }
}
