/**
 Call traces of one worker with ample quota and no kills
 (gcos/kernel/scheduler.py, gcos/kernel/worker_pool.py). A job is an agent and
 the number of LLM calls it needs. FCFS and RR share FIFO selection and differ
 only in how many calls a dispatch may make: the quantum for RR, and the
 non-preemptive cap of 10000 for FCFS.
 */
module Schedules {
  import opened Basics

  const FCFS_CAP := 10_000

  datatype Job = Job(pid: nat, burst: nat)

  function Work(q: seq<Job>): nat {
    if q == [] then 0 else q[0].burst + Work(q[1..])
  }

  function Repeat(x: nat, n: nat): (s: seq<nat>)
    ensures |s| == n && forall i :: 0 <= i < n ==> s[i] == x
  {
    if n == 0 then [] else [x] + Repeat(x, n - 1)
  }

  lemma {:induction false} WorkAppend(q: seq<Job>, j: Job)
    ensures Work(q + [j]) == Work(q) + j.burst
  {
    if q == [] {
      assert q + [j] == [j] && [j][1..] == [];
    } else {
      assert (q + [j])[1..] == q[1..] + [j];
      WorkAppend(q[1..], j);
    }
  }

  /** The queue after the head was dispatched for up to k calls. */
  function Rest(q: seq<Job>, k: nat): (r: seq<Job>)
    requires q != []
    ensures |r| <= |q|
  {
    if q[0].burst <= k then q[1..] else q[1..] + [Job(q[0].pid, q[0].burst - k)]
  }

  lemma {:induction false} RestWork(q: seq<Job>, k: nat)
    requires q != []
    ensures Work(Rest(q, k)) == Work(q) - Min(q[0].burst, k)
  {
    if q[0].burst > k {
      WorkAppend(q[1..], Job(q[0].pid, q[0].burst - k));
    }
  }

  /** The order of calls when each dispatch may make up to k of them. */
  function Trace(q: seq<Job>, k: nat): seq<nat>
    requires k >= 1
    decreases Work(q), |q|
  {
    if q == [] then []
    else
      RestWork(q, k);
      Repeat(q[0].pid, Min(q[0].burst, k)) + Trace(Rest(q, k), k)
  }

  // ----- the loop of the worker -----

  /**
   The worker's two loops: pop the head, make up to `limit` calls, requeue it at
   the tail if it still has work.
   */
  method DrainQueue(jobs: seq<Job>, limit: nat) returns (trace: seq<nat>)
    requires limit >= 1
    ensures trace == Trace(jobs, limit)
  {
    trace := [];
    var q := jobs;
    while q != []
      invariant trace + Trace(q, limit) == Trace(jobs, limit)
      decreases Work(q), |q|
    {
      var job := q[0];
      var made := 0;
      ghost var before := trace;
      while made < limit && made < job.burst
        invariant made <= limit && made <= job.burst
        invariant trace == before + Repeat(job.pid, made)
      {
        RepeatSnoc(job.pid, made);
        trace := trace + [job.pid];
        made := made + 1;
      }
      RestWork(q, limit);
      assert made == Min(job.burst, limit);
      Assoc(before, Repeat(job.pid, made), Trace(Rest(q, limit), limit));
      if made < job.burst {
        q := q[1..] + [Job(job.pid, job.burst - made)];
      } else {
        q := q[1..];
      }
    }
  }

  lemma {:induction false} RepeatSnoc(x: nat, n: nat)
    ensures Repeat(x, n) + [x] == Repeat(x, n + 1)
  {
  }

  // ----- every agent gets exactly its burst -----

  function Demand(q: seq<Job>, p: nat): nat {
    if q == [] then 0 else (if q[0].pid == p then q[0].burst else 0) + Demand(q[1..], p)
  }

  lemma {:induction false} DemandAppend(q: seq<Job>, j: Job, p: nat)
    ensures Demand(q + [j], p) == Demand(q, p) + if j.pid == p then j.burst else 0
  {
    if q == [] {
      assert q + [j] == [j] && [j][1..] == [];
    } else {
      assert (q + [j])[1..] == q[1..] + [j];
      DemandAppend(q[1..], j, p);
    }
  }

  lemma {:induction false} RepeatCount(x: nat, n: nat, p: nat)
    ensures multiset(Repeat(x, n))[p] == if x == p then n else 0
  {
    if n > 0 {
      RepeatCount(x, n - 1, p);
    }
  }

  /** Whatever the quantum, each agent occurs in the trace exactly as often as it needs calls. */
  lemma {:induction false} TraceServesEveryBurst(q: seq<Job>, k: nat, p: nat)
    requires k >= 1
    ensures multiset(Trace(q, k))[p] == Demand(q, p)
    decreases Work(q), |q|
  {
    if q != [] {
      var n := Min(q[0].burst, k);
      RestWork(q, k);
      TraceServesEveryBurst(Rest(q, k), k, p);
      RepeatCount(q[0].pid, n, p);
      if q[0].burst > k {
        DemandAppend(q[1..], Job(q[0].pid, q[0].burst - k), p);
      }
    }
  }

  // ----- a trace, round by round -----

  /** One turn of up to k calls for every agent of the queue. */
  function Round(q: seq<Job>, k: nat): seq<nat> {
    if q == [] then [] else Repeat(q[0].pid, Min(q[0].burst, k)) + Round(q[1..], k)
  }

  /** What is left to do after that turn. */
  function Left(q: seq<Job>, k: nat): seq<Job> {
    if q == [] then []
    else Leftover(q[0], k) + Left(q[1..], k)
  }

  /** The leftover of one agent after its turn. */
  function Leftover(j: Job, k: nat): seq<Job> {
    if j.burst <= k then [] else [Job(j.pid, j.burst - k)]
  }

  lemma {:induction false} FirstTurn(q: seq<Job>, k: nat, extra: seq<Job>)
    requires k >= 1 && q != []
    ensures Trace(q + extra, k)
         == Repeat(q[0].pid, Min(q[0].burst, k)) + Trace(q[1..] + (extra + Leftover(q[0], k)), k)
  {
    RestWork(q + extra, k);
    assert Rest(q + extra, k) == q[1..] + (extra + Leftover(q[0], k));
  }

  lemma {:induction false} Assoc(a: seq<nat>, b: seq<nat>, c: seq<nat>)
    ensures a + (b + c) == (a + b) + c
  {
  }

  lemma {:induction false} PrefixTurn(q: seq<Job>, i: nat, k: nat, extra: seq<Job>)
    requires 0 < i <= |q|
    ensures var tail := q[1..];
      && tail[i - 1..] == q[i..]
      && Round(q[..i], k) == Repeat(q[0].pid, Min(q[0].burst, k)) + Round(tail[..i - 1], k)
      && (extra + Leftover(q[0], k)) + Left(tail[..i - 1], k) == extra + Left(q[..i], k)
  {
    assert q[1..][..i - 1] == q[..i][1..];
  }

  /** Serving the first i agents takes one round over them and queues their leftovers at the tail. */
  lemma {:induction false} TraceByRounds(q: seq<Job>, i: nat, k: nat, extra: seq<Job>)
    requires k >= 1 && i <= |q|
    ensures Trace(q + extra, k) == Round(q[..i], k) + Trace(q[i..] + (extra + Left(q[..i], k)), k)
    decreases i
  {
    if i == 0 {
      assert extra + Left(q[..0], k) == extra;
      assert Round(q[..0], k) == [];
    } else {
      var tail, more := q[1..], extra + Leftover(q[0], k);
      FirstTurn(q, k, extra);
      TraceByRounds(tail, i - 1, k, more);
      PrefixTurn(q, i, k, extra);
      Assoc(Repeat(q[0].pid, Min(q[0].burst, k)), Round(tail[..i - 1], k),
            Trace(q[i..] + (extra + Left(q[..i], k)), k));
    }
  }

  lemma {:induction false} RoundServes(q: seq<Job>, k: nat, p: nat)
    ensures multiset(Round(q, k))[p] <= Demand(q, p)
    ensures (exists i :: 0 <= i < |q| && q[i].pid == p && q[i].burst > k) ==> multiset(Round(q, k))[p] < Demand(q, p)
  {
    if q != [] {
      RepeatCount(q[0].pid, Min(q[0].burst, k), p);
      RoundServes(q[1..], k, p);
      if i :| 0 <= i < |q| && q[i].pid == p && q[i].burst > k {
        assert i > 0 ==> q[1..][i - 1] == q[i];
      }
    }
  }

  predicate DistinctPids(q: seq<Job>) {
    forall i, j :: 0 <= i < j < |q| ==> q[i].pid != q[j].pid
  }

  lemma {:induction false} RoundMembers(q: seq<Job>, k: nat, p: nat)
    requires p in Round(q, k)
    ensures exists i :: 0 <= i < |q| && q[i].pid == p
  {
    if p !in Repeat(q[0].pid, Min(q[0].burst, k)) {
      RoundMembers(q[1..], k, p);
      var i :| 0 <= i < |q[1..]| && q[1..][i].pid == p;
      assert q[i + 1].pid == p;
    } else {
      assert q[0].pid == p;
    }
  }

  // ----- the first call of every agent, in closed form -----

  /** The position of the first p in t, or |t|. */
  function FirstAt(t: seq<nat>, p: nat): (n: nat)
    ensures n <= |t| && p !in t[..n] && (n < |t| ==> t[n] == p)
  {
    if t == [] || t[0] == p then 0
    else
      var n := FirstAt(t[1..], p) + 1;
      assert t[..n] == [t[0]] + t[1..][..n - 1];
      n
  }

  /** Calls made before agent i is first dispatched. */
  function Ahead(q: seq<Job>, i: nat, k: nat): nat
    requires i <= |q|
  {
    |Round(q[..i], k)|
  }

  /** Agent i's first call comes after exactly one round over the agents in front of it. */
  lemma {:induction false} FirstCall(q: seq<Job>, i: nat, k: nat)
    requires k >= 1 && i < |q| && q[i].burst >= 1 && DistinctPids(q)
    ensures FirstAt(Trace(q, k), q[i].pid) == Ahead(q, i, k) < |Trace(q, k)|
  {
    var r, p := Round(q[..i], k), q[i].pid;
    var rest := q[i..] + ([] + Left(q[..i], k));
    TraceByRounds(q, i, k, []);
    assert q + [] == q;
    assert rest[0] == q[i];
    var t := Trace(q, k);
    assert t[|r|] == p by {
      RestWork(rest, k);
      assert Trace(rest, k)[0] == p;
    }
    if p in r {
      RoundMembers(q[..i], k, p);
    }
    assert t[..|r|] == r;
    FirstAtIs(t, |r|, p);
  }

  lemma {:induction false} FirstAtIs(t: seq<nat>, n: nat, p: nat)
    requires n < |t| && t[n] == p && p !in t[..n]
    ensures FirstAt(t, p) == n
  {
    var m := FirstAt(t, p);
    assert t[..n + 1][n] == p;
  }

  lemma {:induction false} RoundLength(q: seq<Job>, k: nat, l: nat)
    ensures |Round(q, k)| <= |Round(q, l)| <==> k <= l || forall j :: 0 <= j < |q| ==> q[j].burst <= l
  {
    if q != [] {
      RoundLength(q[1..], k, l);
      RoundLengthUpTo(q[1..], k, l);
      assert forall j :: 1 <= j < |q| ==> q[j] == q[1..][j - 1];
      assert forall j :: 0 <= j < |q| - 1 ==> q[1..][j] == q[j + 1];
    }
  }

  lemma {:induction false} RoundLengthUpTo(q: seq<Job>, k: nat, l: nat)
    ensures k <= l ==> |Round(q, k)| <= |Round(q, l)|
    ensures l <= k ==> |Round(q, l)| <= |Round(q, k)|
  {
    if q != [] {
      RoundLengthUpTo(q[1..], k, l);
    }
  }

  /**
   RR with quantum k answers agent i no later than FCFS does, exactly when the
   quantum, or every burst in front of agent i, is within the FCFS step cap.
   Beyond the cap FCFS itself yields after 10000 calls and RR does not.
   */
  lemma {:induction false} RoundRobinAnswersNoLater(q: seq<Job>, i: nat, k: nat)
    requires k >= 1 && i < |q| && q[i].burst >= 1 && DistinctPids(q)
    ensures FirstAt(Trace(q, k), q[i].pid) <= FirstAt(Trace(q, FCFS_CAP), q[i].pid)
       <==> (k <= FCFS_CAP || forall j :: 0 <= j < i ==> q[j].burst <= FCFS_CAP)
  {
    FirstCall(q, i, k);
    FirstCall(q, i, FCFS_CAP);
    RoundLength(q[..i], k, FCFS_CAP);
    assert forall j :: 0 <= j < i ==> q[..i][j] == q[j];
  }

  // ----- run to completion, and when RR degenerates to it -----

  /** Each agent in one block, in queue order. */
  function Blocks(q: seq<Job>): seq<nat> {
    if q == [] then [] else Repeat(q[0].pid, q[0].burst) + Blocks(q[1..])
  }

  /** Somebody is preempted while somebody behind still waits. */
  predicate Interleaves(q: seq<Job>, k: nat) {
    exists i, j :: 0 <= i < j < |q| && q[i].burst > k && q[j].burst >= 1
  }

  lemma {:induction false} NobodyElse(q: seq<Job>, j: Job, k: nat)
    requires k >= 1 && forall i :: 0 <= i < |q| ==> q[i].burst == 0
    ensures Trace(q + [j], k) == Repeat(j.pid, j.burst)
    decreases j.burst, |q|
  {
    var all := q + [j];
    RestWork(all, k);
    if q != [] {
      assert Rest(all, k) == q[1..] + [j];
      NobodyElse(q[1..], j, k);
    } else if j.burst > k {
      assert Rest(all, k) == [] + [Job(j.pid, j.burst - k)];
      NobodyElse([], Job(j.pid, j.burst - k), k);
    } else {
      assert Rest(all, k) == [];
    }
  }

  lemma {:induction false} IdleBlocks(q: seq<Job>)
    requires forall i :: 0 <= i < |q| ==> q[i].burst == 0
    ensures Blocks(q) == []
  {
    if q != [] {
      IdleBlocks(q[1..]);
    }
  }

  lemma {:induction false} WithoutInterleaving(q: seq<Job>, k: nat)
    requires k >= 1 && !Interleaves(q, k)
    ensures Trace(q, k) == Blocks(q)
    decreases |q|
  {
    if q != [] {
      RestWork(q, k);
      var tail := q[1..];
      assert forall j :: 0 <= j < |tail| ==> tail[j] == q[j + 1];
      if q[0].burst <= k {
        assert !Interleaves(tail, k);
        WithoutInterleaving(tail, k);
      } else {
        assert forall j :: 0 <= j < |tail| ==> tail[j].burst == 0;
        NobodyElse(tail, Job(q[0].pid, q[0].burst - k), k);
        IdleBlocks(tail);
        assert Repeat(q[0].pid, k) + Repeat(q[0].pid, q[0].burst - k) == Repeat(q[0].pid, q[0].burst);
      }
    }
  }

  /** An agent that one round cannot finish is called again after the round. */
  lemma {:induction false} CalledAgain(q: seq<Job>, i: nat, j: nat, k: nat)
    requires k >= 1 && DistinctPids(q) && i < j <= |q| && q[i].burst > k
    requires |Round(q[..j], k)| <= |Trace(q, k)| && Trace(q, k)[..|Round(q[..j], k)|] == Round(q[..j], k)
    ensures q[i].pid in Trace(q, k)[|Round(q[..j], k)|..]
  {
    var t, b, p := Trace(q, k), |Round(q[..j], k)|, q[i].pid;
    RoundServes(q[..j], k, p);
    assert q[..j][i] == q[i];
    TraceServesEveryBurst(q, k, p);
    DemandPrefix(q, j, p);
    assert t == t[..b] + t[b..];
    assert multiset(t)[p] == multiset(t[..b])[p] + multiset(t[b..])[p];
  }

  /** With interleaving, an agent is served, then another one, then the first again. */
  lemma {:induction false} InterleavingReturns(q: seq<Job>, k: nat)
    requires k >= 1 && Interleaves(q, k) && DistinctPids(q)
    ensures exists a, b, c :: 0 <= a < b < c < |Trace(q, k)|
              && Trace(q, k)[a] == Trace(q, k)[c] != Trace(q, k)[b]
  {
    var i, j :| 0 <= i < j < |q| && q[i].burst > k && q[j].burst >= 1;
    var t, r, p := Trace(q, k), Round(q[..j], k), q[i].pid;
    FirstCall(q, j, k);
    FirstCall(q, i, k);
    TraceByRounds(q, j, k, []);
    assert q + [] == q;
    var b := |r|;
    assert t[b] == q[j].pid;
    var a := Ahead(q, i, k);
    assert t[a] == p;
    assert t[..b] == r;
    RoundSplit(q, i, j, k);
    assert a < b;
    CalledAgain(q, i, j, k);
    var c :| b <= c < |t| && t[c] == p;
    assert b < c;
  }

  lemma {:induction false} DemandPrefix(q: seq<Job>, j: nat, p: nat)
    requires j <= |q|
    ensures Demand(q[..j], p) <= Demand(q, p)
  {
    if j > 0 {
      assert q[..j][1..] == q[1..][..j - 1];
      DemandPrefix(q[1..], j - 1, p);
    }
  }

  lemma {:induction false} RoundSplit(q: seq<Job>, i: nat, j: nat, k: nat)
    requires k >= 1 && i < j <= |q| && q[i].burst >= 1
    ensures Ahead(q, i, k) < Ahead(q, j, k)
    decreases i
  {
    assert q[..j][1..] == q[1..][..j - 1];
    if i > 0 {
      assert q[..i][1..] == q[1..][..i - 1];
      RoundSplit(q[1..], i - 1, j - 1, k);
    }
  }

  /** RR is run-to-completion exactly when nobody is preempted in front of a waiting agent. */
  lemma {:induction false} RunsToCompletionExactlyWhen(q: seq<Job>, k: nat)
    requires k >= 1 && DistinctPids(q)
    ensures Trace(q, k) == Blocks(q) <==> !Interleaves(q, k)
  {
    if !Interleaves(q, k) {
      WithoutInterleaving(q, k);
    } else if Trace(q, k) == Blocks(q) {
      InterleavingReturns(q, k);
      var a, b, c :| 0 <= a < b < c < |Blocks(q)| && Blocks(q)[a] == Blocks(q)[c] != Blocks(q)[b];
      BlocksAreContiguous(q, a, b, c);
    }
  }

  lemma {:induction false} BlocksAreContiguous(q: seq<Job>, a: nat, b: nat, c: nat)
    requires DistinctPids(q) && a < b < c < |Blocks(q)| && Blocks(q)[a] == Blocks(q)[c]
    ensures Blocks(q)[b] == Blocks(q)[a]
  {
    var head, n := Repeat(q[0].pid, q[0].burst), q[0].burst;
    if a < n {
      if c >= n {
        BlocksMembers(q[1..], Blocks(q)[c]);
      }
    } else {
      BlocksAreContiguous(q[1..], a - n, b - n, c - n);
    }
  }

  lemma {:induction false} BlocksMembers(q: seq<Job>, p: nat)
    requires p in Blocks(q)
    ensures exists i :: 0 <= i < |q| && q[i].pid == p
  {
    if p in Repeat(q[0].pid, q[0].burst) {
      assert q[0].pid == p;
    } else {
      BlocksMembers(q[1..], p);
      var i :| 0 <= i < |q[1..]| && q[1..][i].pid == p;
      assert q[i + 1].pid == p;
    }
  }

  /** RR with a quantum of at least every burst is FCFS. */
  lemma {:induction false} RoundRobinDegenerates(q: seq<Job>, k: nat)
    requires k >= 1 && forall i :: 0 <= i < |q| ==> q[i].burst <= k && q[i].burst <= FCFS_CAP
    ensures Trace(q, k) == Trace(q, FCFS_CAP)
  {
    WithoutInterleaving(q, k);
    WithoutInterleaving(q, FCFS_CAP);
  }
}
