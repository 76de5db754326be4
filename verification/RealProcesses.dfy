/**
 Scheduling of real child processes (gcos/osprims/realproc.py): the loop of
 `rr_order` rotates an index over a shrinking list. Signals, sleeping and
 waitpid are abstracted to what the loop can observe: a child has exited once it
 has had `left` slices, and a `late` child's exit is noticed only at its next turn.
 The wall-clock deadline is a number of loop iterations.
 */
module RealProcesses {
  import opened Schedules

  datatype Child = Child(idx: nat, left: nat, late: bool)

  /** A FIFO queue of children: the front gets a slice, then goes to the tail (or stays in front). */
  function Turns(q: seq<Child>, preempt: bool, ticks: nat): seq<nat>
    decreases ticks
  {
    if q == [] || ticks == 0 then []
    else
      var c := q[0];
      if c.left == 0 then Turns(q[1..], preempt, ticks - 1)
      else if c.left == 1 && !c.late then [c.idx] + Turns(q[1..], preempt, ticks - 1)
      else [c.idx] + Turns(Served(q, preempt), preempt, ticks - 1)
  }

  function Served(q: seq<Child>, preempt: bool): seq<Child>
    requires q != [] && q[0].left >= 1
  {
    var c' := q[0].(left := q[0].left - 1);
    if preempt then q[1..] + [c'] else [c'] + q[1..]
  }

  /** The list as seen from the rotating index. */
  function Rotated(pending: seq<Child>, i: nat): seq<Child>
    requires i <= |pending|
  {
    pending[i..] + pending[..i]
  }

  lemma {:induction false} RotatedPop(pending: seq<Child>, i: nat)
    requires i < |pending|
    ensures Rotated(pending[..i] + pending[i + 1..], i) == Rotated(pending, i)[1..]
  {
    var rest := pending[..i] + pending[i + 1..];
    assert rest[i..] == pending[i + 1..] && rest[..i] == pending[..i];
  }

  lemma {:induction false} RotatedServe(pending: seq<Child>, i: nat, c': Child)
    requires i < |pending|
    ensures Rotated(pending[i := c'], i) == [c'] + Rotated(pending, i)[1..]
    ensures Rotated(pending[i := c'], i + 1) == Rotated(pending, i)[1..] + [c']
  {
    var p', before, after := pending[i := c'], pending[..i], pending[i + 1..];
    assert p'[..i] == before && p'[i..] == [c'] + after;
    assert p'[..i + 1] == before + [c'] && p'[i + 1..] == after;
    assert Rotated(pending, i)[1..] == after + before;
    assert ([c'] + after) + before == [c'] + (after + before);
    assert after + (before + [c']) == (after + before) + [c'];
  }

  /** `i %= len(pending)` for an index that is at most one past the end. */
  lemma {:induction false} WrapIndex(pending: seq<Child>, i: nat)
    requires i <= |pending| && pending != []
    ensures i % |pending| == if i == |pending| then 0 else i
    ensures Rotated(pending, i % |pending|) == Rotated(pending, i)
  {
    if i == |pending| {
      assert i % |pending| == 0;
      assert Rotated(pending, i) == [] + pending && Rotated(pending, 0) == pending + [];
    }
  }

  /** The index loop refines the FIFO queue, for every assignment of slice counts. */
  method RrOrder(children: seq<Child>, preempt: bool, ticks: nat) returns (order: seq<nat>)
    ensures order == Turns(children, preempt, ticks)
  {
    order := [];
    var pending, i, t := children, 0, ticks;
    assert Rotated(children, 0) == children;
    while pending != [] && t > 0
      invariant i <= |pending|
      invariant order + Turns(Rotated(pending, i), preempt, t) == Turns(children, preempt, ticks)
      decreases t
    {
      WrapIndex(pending, i);
      t := t - 1;
      i := i % |pending|;
      var c := pending[i];
      RotatedPop(pending, i);
      ghost var q := Rotated(pending, i);
      assert q[0] == c;
      if c.left == 0 {
        pending := pending[..i] + pending[i + 1..];
        continue;
      }
      RotatedServe(pending, i, c.(left := c.left - 1));
      Assoc(order, [c.idx], Turns(if c.left == 1 && !c.late then q[1..] else Served(q, preempt), preempt, t));
      order := order + [c.idx];
      if c.left == 1 && !c.late {
        pending := pending[..i] + pending[i + 1..];
        continue;
      }
      pending := pending[i := c.(left := c.left - 1)];
      if preempt {
        i := i + 1;
      }
    }
  }

  // ----- the order is a call trace -----

  /** The children that still need slices, as jobs. */
  function Active(q: seq<Child>): seq<Job> {
    if q == [] then []
    else (if q[0].left == 0 then [] else [Job(q[0].idx, q[0].left)]) + Active(q[1..])
  }

  /** Iterations that suffice: every slice, and one more per child to notice its exit. */
  function Ample(q: seq<Child>): nat {
    if q == [] then 0 else q[0].left + 1 + Ample(q[1..])
  }

  lemma {:induction false} ActiveAppend(q: seq<Child>, c: Child)
    ensures Active(q + [c]) == Active(q) + if c.left == 0 then [] else [Job(c.idx, c.left)]
    ensures Ample(q + [c]) == Ample(q) + c.left + 1
  {
    if q == [] {
      assert q + [c] == [c] && [c][1..] == [];
    } else {
      assert (q + [c])[1..] == q[1..] + [c];
      ActiveAppend(q[1..], c);
    }
  }

  lemma {:induction false} TraceHead(j: Job, rest: seq<Job>)
    requires j.burst >= 1
    ensures Trace([j] + rest, 1) == [j.pid] + Trace(rest + if j.burst == 1 then [] else [Job(j.pid, j.burst - 1)], 1)
  {
    var q := [j] + rest;
    RestWork(q, 1);
    assert Rest(q, 1) == rest + if j.burst == 1 then [] else [Job(j.pid, j.burst - 1)];
    assert Repeat(j.pid, 1) == [j.pid] + Repeat(j.pid, 0);
  }

  lemma {:induction false} TraceTurn(q: seq<Child>)
    requires q != [] && q[0].left >= 1
    ensures Trace(Active(q), 1) == [q[0].idx] + Trace(Active(Served(q, true)), 1)
    ensures Ample(Served(q, true)) == Ample(q) - 1
  {
    var c, rest := q[0], q[1..];
    ActiveAppend(rest, c.(left := c.left - 1));
    TraceHead(Job(c.idx, c.left), Active(rest));
    assert Active(q) == [Job(c.idx, c.left)] + Active(rest);
    assert Served(q, true) == rest + [c.(left := c.left - 1)];
  }

  /** A child on its last slice may as well leave now: nothing is left of it in the queue. */
  lemma {:induction false} LastTurn(q: seq<Child>)
    requires q != [] && q[0].left == 1
    ensures Active(Served(q, true)) == Active(q[1..]) && Active(Served(q, false)) == Active(q[1..])
  {
    var c' := q[0].(left := 0);
    ActiveAppend(q[1..], c');
    ActiveCons(c', q[1..]);
    assert Active(q[1..]) + [] == Active(q[1..]);
  }

  lemma {:induction false} PrefixCons(x: nat, a: seq<nat>, b: seq<nat>)
    requires a <= b
    ensures [x] + a <= [x] + b
  {
  }

  /**
   With preemption the order is the round-robin call trace with quantum 1: all
   of it when the deadline is ample, otherwise a prefix.
   */
  lemma {:induction false} PreemptiveOrderIsRoundRobin(q: seq<Child>, ticks: nat)
    ensures Turns(q, true, ticks) <= Trace(Active(q), 1)
    ensures ticks >= Ample(q) ==> Turns(q, true, ticks) == Trace(Active(q), 1)
    decreases ticks
  {
    if q != [] && ticks > 0 {
      var c := q[0];
      if c.left == 0 {
        assert Active(q) == Active(q[1..]);
        PreemptiveOrderIsRoundRobin(q[1..], ticks - 1);
      } else {
        TraceTurn(q);
        var next := if c.left == 1 && !c.late then q[1..] else Served(q, true);
        if c.left == 1 {
          LastTurn(q);
        }
        PreemptiveOrderIsRoundRobin(next, ticks - 1);
        PrefixCons(c.idx, Turns(next, true, ticks - 1), Trace(Active(next), 1));
      }
    }
  }

  /** Without preemption every child's slices come in one block. */
  lemma {:induction false} NonPreemptiveOrderIsBlocks(q: seq<Child>, ticks: nat)
    ensures Turns(q, false, ticks) <= Blocks(Active(q))
    ensures ticks >= Ample(q) ==> Turns(q, false, ticks) == Blocks(Active(q))
    decreases ticks
  {
    if q != [] && ticks > 0 {
      var c := q[0];
      if c.left == 0 {
        assert Active(q) == Active(q[1..]);
        NonPreemptiveOrderIsBlocks(q[1..], ticks - 1);
      } else {
        BlocksHead(q);
        assert Served(q, false)[1..] == q[1..];
        var next := if c.left == 1 && !c.late then q[1..] else Served(q, false);
        if c.left == 1 {
          LastTurn(q);
        }
        NonPreemptiveOrderIsBlocks(next, ticks - 1);
        PrefixCons(c.idx, Turns(next, false, ticks - 1), Blocks(Active(next)));
      }
    }
  }

  lemma {:induction false} BlocksCons(j: Job, rest: seq<Job>)
    ensures Blocks([j] + rest) == Repeat(j.pid, j.burst) + Blocks(rest)
  {
    assert ([j] + rest)[1..] == rest;
  }

  lemma {:induction false} ActiveCons(c: Child, rest: seq<Child>)
    ensures Active([c] + rest) == if c.left == 0 then Active(rest) else [Job(c.idx, c.left)] + Active(rest)
  {
    assert ([c] + rest)[1..] == rest;
    assert [] + Active(rest) == Active(rest);
  }

  lemma {:induction false} BlocksHead(q: seq<Child>)
    requires q != [] && q[0].left >= 1
    ensures Blocks(Active(q)) == [q[0].idx] + Blocks(Active(Served(q, false)))
  {
    var c, rest := q[0], q[1..];
    ActiveCons(c.(left := c.left - 1), rest);
    ActiveCons(c, rest);
    assert q == [c] + rest && Served(q, false) == [c.(left := c.left - 1)] + rest;
    BlocksUnfold(c.idx, c.left, Active(rest));
  }

  lemma {:induction false} BlocksUnfold(pid: nat, n: nat, rest: seq<Job>)
    requires n >= 1
    ensures Blocks([Job(pid, n)] + rest)
         == [pid] + Blocks(if n == 1 then rest else [Job(pid, n - 1)] + rest)
  {
    BlocksCons(Job(pid, n), rest);
    BlocksCons(Job(pid, n - 1), rest);
    Assoc([pid], Repeat(pid, n - 1), Blocks(rest));
    assert n == 1 ==> Repeat(pid, 0) + Blocks(rest) == Blocks(rest);
  }

  // ----- block_count -----

  /** Maximal runs of equal entries: one, plus one per adjacent change. */
  function BlockCount(o: seq<nat>): nat {
    if |o| <= 1 then |o| else (if o[0] != o[1] then 1 else 0) + BlockCount(o[1..])
  }

  /** The positions whose entry differs from the one before. */
  function Changes(o: seq<nat>): set<int> {
    set i | 0 < i < |o| && ChangesAt(o, i)
  }

  predicate ChangesAt(o: seq<nat>, i: int)
    requires 0 < i < |o|
  {
    o[i] != o[i - 1]
  }

  lemma {:induction false} BlockCountSnoc(o: seq<nat>, x: nat)
    ensures BlockCount(o + [x]) == BlockCount(o) + if o == [] || o[|o| - 1] != x then 1 else 0
  {
    if |o| >= 2 {
      assert (o + [x])[1..] == o[1..] + [x];
      BlockCountSnoc(o[1..], x);
    } else if |o| == 1 {
      assert (o + [x])[1..] == [x];
    }
  }

  lemma {:induction false} ChangesSnoc(o: seq<nat>, x: nat)
    requires o != []
    ensures |Changes(o + [x])| == |Changes(o)| + if o[|o| - 1] != x then 1 else 0
  {
    var t := o + [x];
    assert forall i :: 0 < i < |o| ==> ChangesAt(t, i) == ChangesAt(o, i);
    if o[|o| - 1] != x {
      assert ChangesAt(t, |o|);
      assert Changes(t) == Changes(o) + {|o|};
    } else {
      assert Changes(t) == Changes(o);
    }
  }

  /** `block_count`: one more than the positions that differ from their predecessor. */
  lemma {:induction false} BlockCountCountsChanges(o: seq<nat>)
    ensures BlockCount(o) == if o == [] then 0 else 1 + |Changes(o)|
    decreases |o|
  {
    if |o| == 1 {
      assert Changes(o) == {};
    } else if |o| >= 2 {
      var n := |o| - 1;
      var p := o[..n];
      assert o == p + [o[n]];
      BlockCountSnoc(p, o[n]);
      BlockCountCountsChanges(p);
      ChangesSnoc(p, o[n]);
    }
  }

  function Occurring(o: seq<nat>): set<nat> {
    set x | x in o
  }

  predicate Contiguous(o: seq<nat>) {
    forall a, b, c :: 0 <= a < b < c < |o| && o[a] == o[c] ==> o[b] == o[a]
  }

  lemma {:induction false} ContiguousTail(o: seq<nat>)
    requires |o| >= 2
    ensures Contiguous(o) <==> Contiguous(o[1..]) && (o[0] == o[1] || o[0] !in o[1..])
  {
    var t := o[1..];
    assert forall i :: 0 <= i < |t| ==> t[i] == o[i + 1];
    if Contiguous(o) {
      if o[0] in t {
        var c :| 0 <= c < |t| && t[c] == o[0];
        assert o[c + 1] == o[0];
      }
    } else {
      var a, b, c :| 0 <= a < b < c < |o| && o[a] == o[c] && o[b] != o[a];
      if a > 0 {
        assert t[a - 1] == t[c - 1] && t[b - 1] != t[a - 1];
      } else {
        assert t[c - 1] == o[0];
        if o[0] == o[1] {
          assert b > 1 && t[0] == t[c - 1] && t[b - 1] != t[0];
        }
      }
    }
  }

  /** There are at least as many blocks as distinct children, and exactly as many iff each is contiguous. */
  lemma {:induction false} BlockCountBound(o: seq<nat>)
    ensures BlockCount(o) >= |Occurring(o)|
    ensures BlockCount(o) == |Occurring(o)| <==> Contiguous(o)
  {
    if o == [] {
      assert Occurring(o) == {};
    } else if |o| == 1 {
      assert Occurring(o) == {o[0]};
    } else {
      var t := o[1..];
      BlockCountBound(t);
      ContiguousTail(o);
      assert t[0] == o[1];
      assert o == [o[0]] + t;
      if o[0] in t {
        assert Occurring(o) == Occurring(t);
      } else {
        assert Occurring(o) == {o[0]} + Occurring(t);
        assert o[0] !in Occurring(t);
      }
    }
  }

  predicate DistinctIdx(q: seq<Child>) {
    forall i, j :: 0 <= i < j < |q| ==> q[i].idx != q[j].idx
  }

  lemma {:induction false} ActiveFrom(q: seq<Child>, i: nat)
    requires i < |Active(q)|
    ensures exists j :: 0 <= j < |q| && q[j].left >= 1 && Active(q)[i] == Job(q[j].idx, q[j].left)
  {
    var here := if q[0].left == 0 then 0 else 1;
    if i >= here {
      ActiveFrom(q[1..], i - here);
      var j :|
        && 0 <= j < |q[1..]| && q[1..][j].left >= 1
        && Active(q[1..])[i - here] == Job(q[1..][j].idx, q[1..][j].left);
      assert q[j + 1] == q[1..][j];
    } else {
      assert Active(q)[i] == Job(q[0].idx, q[0].left);
    }
  }

  lemma {:induction false} ActiveDistinct(q: seq<Child>)
    requires DistinctIdx(q)
    ensures DistinctPids(Active(q))
  {
    if q != [] {
      var rest := Active(q[1..]);
      ActiveDistinct(q[1..]);
      forall j | 0 <= j < |rest|
        ensures rest[j].pid != q[0].idx
      {
        ActiveFrom(q[1..], j);
      }
    }
  }

  lemma {:induction false} PrefixContiguous(o: seq<nat>, p: seq<nat>)
    requires p <= o && Contiguous(o)
    ensures Contiguous(p)
  {
    assert forall i :: 0 <= i < |p| ==> p[i] == o[i];
  }

  lemma {:induction false} AllBlocksContiguous(q: seq<Job>)
    requires DistinctPids(q)
    ensures Contiguous(Blocks(q))
  {
    forall a, b, c | 0 <= a < b < c < |Blocks(q)| && Blocks(q)[a] == Blocks(q)[c]
      ensures Blocks(q)[b] == Blocks(q)[a]
    {
      BlocksAreContiguous(q, a, b, c);
    }
  }

  /** FCFS: whatever the deadline, there is exactly one block per child dispatched. */
  lemma {:induction false} ConvoyHasOneBlockPerChild(q: seq<Child>, ticks: nat)
    requires DistinctIdx(q)
    ensures BlockCount(Turns(q, false, ticks)) == |Occurring(Turns(q, false, ticks))|
  {
    var o := Turns(q, false, ticks);
    NonPreemptiveOrderIsBlocks(q, ticks);
    ActiveDistinct(q);
    AllBlocksContiguous(Active(q));
    PrefixContiguous(Blocks(Active(q)), o);
    BlockCountBound(o);
  }

  /**
   RR does not always show more blocks than children: it does, given an ample
   deadline, exactly when some child needs two slices while a later one needs any.
   */
  lemma {:induction false} PreemptionShowsExactlyWhen(q: seq<Child>, ticks: nat)
    requires DistinctIdx(q) && ticks >= Ample(q)
    ensures var o := Turns(q, true, ticks);
      BlockCount(o) > |Occurring(o)| <==> Overlaps(q)
  {
    var o, jobs := Turns(q, true, ticks), Active(q);
    PreemptiveOrderIsRoundRobin(q, ticks);
    ActiveDistinct(q);
    BlockCountBound(o);
    ActiveInterleaves(q);
    if Interleaves(jobs, 1) {
      InterleavingReturns(jobs, 1);
    } else {
      WithoutInterleaving(jobs, 1);
      AllBlocksContiguous(jobs);
    }
  }

  predicate SomeSlice(q: seq<Child>) {
    exists j :: 0 <= j < |q| && q[j].left >= 1
  }

  /** Some child needs two slices while a later one needs any. */
  predicate Overlaps(q: seq<Child>) {
    exists i, j :: 0 <= i < j < |q| && q[i].left >= 2 && q[j].left >= 1
  }

  lemma {:induction false} HeadOverlaps(q: seq<Child>)
    requires q != []
    ensures Overlaps(q) <==> Overlaps(q[1..]) || (q[0].left >= 2 && SomeSlice(q[1..]))
  {
    var t := q[1..];
    assert forall j :: 0 <= j < |t| ==> t[j] == q[j + 1];
    if i, j :| 0 <= i < j < |q| && q[i].left >= 2 && q[j].left >= 1 {
      assert t[j - 1].left >= 1;
      assert i > 0 ==> t[i - 1].left >= 2;
    }
    if i, j :| 0 <= i < j < |t| && t[i].left >= 2 && t[j].left >= 1 {
      assert q[i + 1].left >= 2 && q[j + 1].left >= 1;
    }
    if j :| 0 <= j < |t| && t[j].left >= 1 {
      assert q[j + 1].left >= 1;
    }
  }

  /** Idle children do not matter for interleaving. */
  lemma {:induction false} ActiveInterleaves(q: seq<Child>)
    ensures Interleaves(Active(q), 1) <==> Overlaps(q)
  {
    if q != [] {
      var rest := Active(q[1..]);
      ActiveInterleaves(q[1..]);
      HeadOverlaps(q);
      ActiveEmpty(q);
      ActiveEmpty(q[1..]);
      if q[0].left == 0 {
        assert Active(q) == rest;
      } else {
        assert Active(q)[1..] == rest;
        HeadInterleaves(Active(q));
      }
    }
  }

  lemma {:induction false} ActiveEmpty(q: seq<Child>)
    ensures Active(q) != [] <==> SomeSlice(q)
    ensures forall i :: 0 <= i < |Active(q)| ==> Active(q)[i].burst >= 1
  {
    if q != [] {
      ActiveEmpty(q[1..]);
      assert forall j :: 1 <= j < |q| ==> q[j] == q[1..][j - 1];
      assert forall j :: 0 <= j < |q| - 1 ==> q[1..][j] == q[j + 1];
    }
  }

  lemma {:induction false} HeadInterleaves(jobs: seq<Job>)
    requires jobs != [] && forall i :: 0 <= i < |jobs| ==> jobs[i].burst >= 1
    ensures Interleaves(jobs, 1) <==> Interleaves(jobs[1..], 1) || (jobs[0].burst > 1 && jobs[1..] != [])
  {
    var t := jobs[1..];
    assert forall i :: 0 <= i < |t| ==> t[i] == jobs[i + 1];
    if i, j :| 0 <= i < j < |jobs| && jobs[i].burst > 1 && jobs[j].burst >= 1 {
      if i > 0 {
        assert t[i - 1].burst > 1 && t[j - 1].burst >= 1;
      }
    }
    if i, j :| 0 <= i < j < |t| && t[i].burst > 1 && t[j].burst >= 1 {
      assert jobs[i + 1].burst > 1 && jobs[j + 1].burst >= 1;
    }
    if jobs[0].burst > 1 && t != [] {
      assert jobs[1].burst >= 1;
    }
  }

  // ----- max_consecutive_run -----

  predicate IsRun(o: seq<nat>, i: int, j: int) {
    0 <= i <= j <= |o| && forall k :: i <= k < j ==> o[k] == o[i]
  }

  /** The longest run: attained, and not exceeded. */
  method MaxConsecutiveRun(o: seq<nat>) returns (best: nat)
    ensures exists i, j :: IsRun(o, i, j) && j - i == best
    ensures forall i, j :: IsRun(o, i, j) ==> j - i <= best
  {
    best := 0;
    var run := 0;
    assert IsRun(o, 0, 0);
    for k := 0 to |o|
      invariant run <= best && run <= k && (k > 0 ==> run > 0)
      invariant IsRun(o, k - run, k)
      invariant forall i :: IsRun(o, i, k) ==> k - i <= run
      invariant exists i, j :: IsRun(o, i, j) && j - i == best
      invariant forall i, j :: IsRun(o, i, j) && j <= k ==> j - i <= best
    {
      ghost var last := run;
      if k > 0 && o[k] == o[k - 1] {
        run := run + 1;
      } else {
        run := 1;
      }
      ghost var k' := k + 1;
      forall i | IsRun(o, i, k')
        ensures k' - i <= run
      {
        if i < k {
          assert IsRun(o, i, k);
          assert o[k - 1] == o[i] && o[k] == o[i];
        }
      }
      if run > best {
        best := run;
        assert IsRun(o, k + 1 - run, k + 1);
      }
    }
  }
}
