/**
 The eviction policies and `assemble` as they mutate an agent's page list
 (gcos/memory/context_pager.py, gcos/memory/evict_lru.py,
 gcos/memory/evict_summarize.py, gcos/memory/swap.py). Each method is proved
 against the functions of module Pager.
 */
module PagerLoop {
  import opened Basics
  import opened Pages
  import opened Pager
  import opened PolicyRuns
  import Quotas

  datatype Message = Message(role: string, content: string)

  function Messages(ps: seq<Page>, extra: string): seq<Message> {
    seq(|ps|, i requires 0 <= i < |ps| => Message(ps[i].role, ps[i].content))
    + if extra == "" then [] else [Message("user", extra)]
  }

  ghost predicate AlwaysReplies(env: Verdicts) {
    forall g: nat, k: nat :: !env(g, k).QuotaDenied?
  }

  /** The budget in use; a policy without a quota is not metered. */
  function Charged(quota: Quotas.Quota?): int
    reads quota
  {
    if quota == null then 0 else quota.Value().Used()
  }

  predicate WithinTotal(quota: Quotas.Quota?)
    reads quota
  {
    quota == null || quota.remaining <= quota.total
  }

  class Context {
    var pages: seq<Page>

    constructor ()
      ensures pages == []
    {
      pages := [];
    }

    method DropStalest(minKeep: nat) returns (freed: nat)
      modifies this
      ensures Evicted(pages, freed) == EvictLru(old(pages), minKeep)
    {
      var nonPinned := Loose(pages);
      if |nonPinned| <= minKeep {
        return 0;
      }
      pages := Remove(pages, Stalest(nonPinned));
      return 1;
    }

    /** `for p in batch: pages.remove(p)`. */
    method RemoveBatch(batch: seq<Page>)
      modifies this
      ensures pages == RemoveAll(old(pages), batch)
    {
      for i := 0 to |batch|
        invariant RemoveAll(old(pages), batch) == RemoveAll(pages, batch[i..])
      {
        assert batch[i..][0] == batch[i] && batch[i..][1..] == batch[i + 1..];
        pages := Remove(pages, batch[i]);
      }
    }

    method SwapOut(n: nat, minKeep: nat) returns (batch: seq<Page>)
      modifies this
      ensures batch == SwapBatch(old(pages), n, minKeep)
      ensures Evicted(pages, |batch|) == EvictSwap(old(pages), n, minKeep)
    {
      var nonPinned := Loose(pages);
      if |nonPinned| <= minKeep {
        return [];
      }
      batch := Oldest(nonPinned, Min(n, |nonPinned|));
      RemoveBatch(batch);
    }

    /**
     The summarise tier with its quota charge, if it was given a quota: the unit
     taken before the call is kept exactly when the call returned, and handed
     back when it failed. A batch of 0 makes the source fail after the call.
     */
    method Compress(n: nat, quota: Quotas.Quota?, v: Verdict) returns (e: Eviction)
      requires !v.QuotaDenied? && (quota != null ==> quota.remaining <= quota.total)
      modifies this, if quota == null then {} else {quota}
      ensures var enough := |Filter(old(pages), IsCandidate)| >= n;
              var paid := enough && (quota == null || old(quota.remaining) >= 1);
        && e == EvictSummarise(old(pages), n, if paid then v else QuotaDenied)
        && pages == e.pages
        && (quota != null ==>
              && quota.total == old(quota.total)
              && quota.Value().Used() == old(quota.Value()).Used() + (if paid && v.Wrote? then 1 else 0))
    {
      var candidates := Filter(pages, IsCandidate);
      if |candidates| < n {
        return Evicted(pages, 0);
      }
      var batch := Oldest(candidates, n);
      if quota != null {
        var got := quota.Acquire(1);
        if !got {
          return Evicted(pages, 0);
        }
      }
      if v.CallRaised? {
        if quota != null {
          quota.GiveBack(1);
        }
        return Raises(pages);
      }
      if batch == [] {
        return Raises(pages);
      }
      var at := IndexOf(pages, batch[0]);
      RemoveBatch(batch);
      pages := Insert(pages, at, SummaryPage(n, v));
      return Evicted(pages, n - 1);
    }

    /** One policy on the page list; `now` says that the budget denied its call. */
    method ApplyPolicy(pol: Policy, quota: Quotas.Quota?, v: Verdict, ghost st: Step)
        returns (e: Eviction, ghost now: bool, ghost calls: nat)
      requires !v.QuotaDenied? && WithinTotal(quota) && ArePolicies(st)
      modifies this, if quota == null then {} else {quota}
      ensures WithinTotal(quota) && (now ==> pol.Summarise? && quota != null && old(quota.remaining) < 1)
      ensures (e, calls) == st(pol, old(pages), if now then QuotaDenied else v) && pages == e.pages
      ensures Charged(quota) == old(Charged(quota)) + if quota == null then 0 else calls
    {
      ghost var n: nat :| Sealed(st, n);
      Unseal(st, n);
      now := pol.Summarise? && quota != null && quota.remaining < 1;
      calls := if !now && CallReturns(pol, pages, v) then 1 else 0;
      match pol
      case Lru(k) =>
        var freed := DropStalest(k);
        e := Evicted(pages, freed);
      case Swap(n, k) =>
        var batch := SwapOut(n, k);
        e := Evicted(pages, |batch|);
      case Summarise(n) =>
        e := Compress(n, quota, v);
    }

    /** The inner loop over policies: stop at the first that frees something. */
    method TryPolicies(pols: seq<Policy>, quota: Quotas.Quota?, env: Verdicts, g: nat, ghost st: Step)
        returns (e: Eviction, ghost denied: set<(nat, nat)>, ghost calls: nat)
      requires AlwaysReplies(env) && WithinTotal(quota) && ArePolicies(st)
      modifies this, if quota == null then {} else {quota}
      ensures WithinTotal(quota) && InRound(denied, g, |pols|) && (quota == null ==> denied == {})
      ensures (e, calls) == TryAll(st, pols, old(pages), Deny(env, denied), g, 0) && pages == e.pages
      ensures Charged(quota) == old(Charged(quota)) + if quota == null then 0 else calls
    {
      e, denied, calls := Evicted(pages, 0), {}, 0;
      for i := 0 to |pols|
        invariant WithinTotal(quota) && InRound(denied, g, i) && (quota == null ==> denied == {})
        invariant e == Evicted(pages, 0) && PassedOver(st, pols, old(pages), Deny(env, denied), g, 0, i, pages, calls)
        invariant Charged(quota) == old(Charged(quota)) + if quota == null then 0 else calls
      {
        ghost var ps, now, m := pages, false, 0;
        e, now, m := ApplyPolicy(pols[i], quota, env(g, i), st);
        OnePolicy(st, pols, old(pages), env, denied, g, i, ps, calls, now);
        denied, calls := AlsoDenied(denied, g, i, now), calls + m;
        if e.Raises? || e.freed > 0 {
          return;
        }
      }
      AllPassed(st, pols, old(pages), Deny(env, denied), g, pages, calls);
    }

    /** One round of the loop that began with `start` and `attempts`. */
    method RunRound(
        pols: seq<Policy>, quota: Quotas.Quota?, budget: int, guard: nat, env: Verdicts, ghost attempts: nat,
        ghost st: Step, ghost start: seq<Page>, ghost denied: set<(nat, nat)>, ghost calls: nat)
        returns (e: Eviction, ghost denied': set<(nat, nat)>, ghost calls': nat)
      requires AlwaysReplies(env) && WithinTotal(quota) && ArePolicies(st)
      requires guard > 0 && ContextSize(pages) > budget && AboveRound(denied, guard)
      requires Reached(st, pols, start, budget, attempts, Deny(env, denied), guard, pages, calls)
      modifies this, if quota == null then {} else {quota}
      ensures WithinTotal(quota) && AboveRound(denied', guard - 1) && (quota == null ==> denied' == denied)
      ensures e.pages == pages && if Frees(e)
        then Reached(st, pols, start, budget, attempts, Deny(env, denied'), guard - 1, pages, calls')
        else Rounds(st, pols, start, budget, attempts, Deny(env, denied')) == Ending(pages, e.Raises?, calls')
      ensures Charged(quota) == old(Charged(quota)) + if quota == null then 0 else calls' - calls
    {
      ghost var ps, more, m := pages, {}, 0;
      e, more, m := TryPolicies(pols, quota, env, guard, st);
      OneRound(st, pols, start, budget, attempts, env, denied, more, guard, ps, calls);
      denied', calls' := denied + more, calls + m;
    }

    /** The rounds, with at most `attempts` evictions. */
    method RunRounds(pols: seq<Policy>, quota: Quotas.Quota?, budget: int, attempts: nat, env: Verdicts, ghost st: Step)
        returns (raised: bool, ghost denied: set<(nat, nat)>, ghost calls: nat)
      requires AlwaysReplies(env) && WithinTotal(quota) && ArePolicies(st)
      modifies this, if quota == null then {} else {quota}
      ensures WithinTotal(quota) && (quota == null ==> denied == {})
      ensures Ending(pages, raised, calls) == Rounds(st, pols, old(pages), budget, attempts, Deny(env, denied))
      ensures Charged(quota) == old(Charged(quota)) + if quota == null then 0 else calls
    {
      raised, denied, calls := false, {}, 0;
      var guard: nat := attempts;
      while ContextSize(pages) > budget && guard > 0
        invariant WithinTotal(quota) && AboveRound(denied, guard) && (quota == null ==> denied == {}) && !raised
        invariant Reached(st, pols, old(pages), budget, attempts, Deny(env, denied), guard, pages, calls)
        invariant Charged(quota) == old(Charged(quota)) + if quota == null then 0 else calls
        decreases guard
      {
        var e;
        e, denied, calls := RunRound(pols, quota, budget, guard, env, attempts, st, old(pages), denied, calls);
        if e.Raises? {
          return true, denied, calls;
        }
        if e.freed == 0 {
          return;
        }
        guard := guard - 1;
      }
      RoundsOver(st, pols, old(pages), budget, attempts, Deny(env, denied), guard, pages, calls);
    }

    /**
     The eviction loop of `assemble`. `denied` is where a dry budget denied a
     summary. The budget in use grows by exactly the summarise calls that
     returned, and a policy that raises leaves the pages as the evictions before it left them.
     */
    method EvictToBudget(pols: seq<Policy>, quota: Quotas.Quota?, budget: int, attempts: nat, env: Verdicts)
        returns (raised: bool, ghost denied: set<(nat, nat)>, ghost calls: nat)
      requires AlwaysReplies(env) && WithinTotal(quota)
      modifies this, if quota == null then {} else {quota}
      ensures WithinTotal(quota) && (quota == null ==> denied == {})
      ensures var r := Assemble(pols, old(pages), budget, attempts, Deny(env, denied));
        raised == r.Aborted? && pages == r.pages
      ensures calls == Rounds(Policies(), pols, old(pages), budget, attempts, Deny(env, denied)).calls
      ensures Charged(quota) == old(Charged(quota)) + if quota == null then 0 else calls
    {
      PoliciesAre();
      raised, denied, calls := RunRounds(pols, quota, budget, attempts, env, Policies());
      RoundsAreAssemble(Policies(), pols, old(pages), budget, attempts, Deny(env, denied));
    }

    method TouchAll(clock: nat -> int) returns (messages: seq<Message>)
      modifies this
      ensures pages == Touch(old(pages), clock) && messages == Messages(old(pages), "")
    {
      messages := [];
      ghost var qs := pages;
      for i := 0 to |pages|
        invariant |pages| == |qs| && |messages| == i
        invariant forall j :: 0 <= j < i ==> messages[j] == Message(qs[j].role, qs[j].content)
        invariant forall j :: 0 <= j < |qs| ==> pages[j] == if j < i then qs[j].(lastAccess := clock(j)) else qs[j]
      {
        pages := pages[i := pages[i].(lastAccess := clock(i))];
        messages := messages + [Message(pages[i].role, pages[i].content)];
      }
    }

    /** `assemble`: evict, then touch every page and build the messages. The source fixes `guard` to GUARD. */
    method AssembleMessages(
        pols: seq<Policy>, quota: Quotas.Quota?, budget: int, guard: nat, extra: string, env: Verdicts,
        clock: nat -> int)
        returns (messages: seq<Message>, raised: bool, ghost denied: set<(nat, nat)>, ghost calls: nat)
      requires AlwaysReplies(env) && WithinTotal(quota)
      modifies this, if quota == null then {} else {quota}
      ensures WithinTotal(quota) && (quota == null ==> denied == {})
      ensures var r := Assemble(pols, old(pages), budget - Estimate(extra), guard, Deny(env, denied));
        && raised == r.Aborted?
        && pages == (if raised then r.pages else Touch(r.pages, clock))
        && (!raised ==> messages == Messages(r.pages, extra))
      ensures Charged(quota) == old(Charged(quota)) + if quota == null then 0 else calls
    {
      messages := [];
      raised, denied, calls := EvictToBudget(pols, quota, budget - Estimate(extra), guard, env);
      if raised {
        return;
      }
      messages := TouchAll(clock);
      if extra != "" {
        messages := messages + [Message("user", extra)];
      }
    }
  }
}
