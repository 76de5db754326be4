/**
 How far the two loops of `assemble` have come (gcos/memory/context_pager.py), for any
 policies: what a pass over the policies and a pass over the rounds add up to.
 A policy is seen as a function of the pages and the verdict it meets, giving
 the eviction and the number of calls that returned.
 */
module PolicyRuns {
  import opened Pages
  import opened Pager

  type Step = (Policy, seq<Page>, Verdict) -> (Eviction, nat)
  type Verdicts = (nat, nat) -> Verdict

  predicate Frees(e: Eviction) {
    e.Evicted? && e.freed > 0
  }

  predicate FreesNothing(e: Eviction) {
    e.Evicted? && e.freed == 0
  }

  /** One round: policies in order until one frees something or raises. */
  function TryAll(st: Step, pols: seq<Policy>, ps: seq<Page>, env: Verdicts, g: nat, k: nat): (Eviction, nat)
    decreases |pols|
  {
    if pols == [] then (Evicted(ps, 0), 0)
    else
      var (e, n) := st(pols[0], ps, env(g, k));
      if !FreesNothing(e) then (e, n)
      else
        var (f, m) := TryAll(st, pols[1..], e.pages, env, g, k + 1);
        (f, n + m)
  }

  /** The first i policies freed nothing and led from ps to qs, with n calls. */
  predicate PassedOver(
      st: Step, pols: seq<Policy>, ps: seq<Page>, env: Verdicts, g: nat, k: nat, i: nat, qs: seq<Page>, n: nat)
    decreases i
  {
    if i == 0 then qs == ps && n == 0
    else
      && pols != []
      && var (e, m) := st(pols[0], ps, env(g, k));
      FreesNothing(e) && n >= m && PassedOver(st, pols[1..], e.pages, env, g, k + 1, i - 1, qs, n - m)
  }

  lemma {:induction false} PassedSame(
      st: Step, pols: seq<Policy>, ps: seq<Page>, env: Verdicts, env': Verdicts,
      g: nat, k: nat, i: nat, qs: seq<Page>, n: nat)
    requires PassedOver(st, pols, ps, env, g, k, i, qs, n) && forall x: nat :: x < k + i ==> env(g, x) == env'(g, x)
    ensures PassedOver(st, pols, ps, env', g, k, i, qs, n)
    decreases i
  {
    if i > 0 {
      var (e, m) := st(pols[0], ps, env(g, k));
      PassedSame(st, pols[1..], e.pages, env, env', g, k + 1, i - 1, qs, n - m);
    }
  }

  lemma {:induction false} PassedMore(
      st: Step, pols: seq<Policy>, ps: seq<Page>, env: Verdicts, g: nat, k: nat, i: nat, qs: seq<Page>, n: nat)
    requires i < |pols| && PassedOver(st, pols, ps, env, g, k, i, qs, n)
    requires FreesNothing(st(pols[i], qs, env(g, k + i)).0)
    ensures var (e, m) := st(pols[i], qs, env(g, k + i)); PassedOver(st, pols, ps, env, g, k, i + 1, e.pages, n + m)
    decreases i
  {
    if i > 0 {
      var (e, m) := st(pols[0], ps, env(g, k));
      assert pols[1..][i - 1] == pols[i];
      PassedMore(st, pols[1..], e.pages, env, g, k + 1, i - 1, qs, n - m);
    }
  }

  /** What is left of the round decides it. */
  lemma {:induction false} PassedThen(
      st: Step, pols: seq<Policy>, ps: seq<Page>, env: Verdicts, g: nat, k: nat, i: nat, qs: seq<Page>, n: nat)
    requires i <= |pols| && PassedOver(st, pols, ps, env, g, k, i, qs, n)
    ensures var (e, m) := TryAll(st, pols[i..], qs, env, g, k + i); TryAll(st, pols, ps, env, g, k) == (e, n + m)
    decreases i
  {
    if i == 0 {
      assert pols[0..] == pols;
    } else {
      var (e, m) := st(pols[0], ps, env(g, k));
      assert pols[1..][i - 1..] == pols[i..];
      PassedThen(st, pols[1..], e.pages, env, g, k + 1, i - 1, qs, n - m);
    }
  }

  lemma {:induction false} TryAllSame(
      st: Step, pols: seq<Policy>, ps: seq<Page>, env: Verdicts, env': Verdicts, g: nat, k: nat)
    requires forall x: nat :: env(g, x) == env'(g, x)
    ensures TryAll(st, pols, ps, env, g, k) == TryAll(st, pols, ps, env', g, k)
    decreases |pols|
  {
    if pols != [] {
      assert env(g, k) == env'(g, k);
      TryAllSame(st, pols[1..], st(pols[0], ps, env(g, k)).0.pages, env, env', g, k + 1);
    }
  }

  /** The model's replies, except at the places where the budget denied the call. */
  function Deny(env: Verdicts, denied: set<(nat, nat)>): Verdicts {
    (x: nat, y: nat) => if (x, y) in denied then QuotaDenied else env(x, y)
  }

  predicate InRound(denied: set<(nat, nat)>, g: nat, i: nat) {
    forall p :: p in denied ==> p.0 == g && p.1 < i
  }

  predicate AboveRound(denied: set<(nat, nat)>, guard: nat) {
    forall p :: p in denied ==> p.0 > guard
  }

  /** The policy at this place may have been denied. */
  function AlsoDenied(denied: set<(nat, nat)>, g: nat, i: nat, now: bool): set<(nat, nat)> {
    if now then denied + {(g, i)} else denied
  }

  /** One iteration of the loop over policies, whose denial becomes known only now. */
  lemma {:induction false} OnePolicy(
      st: Step, pols: seq<Policy>, ps: seq<Page>, env: Verdicts, denied: set<(nat, nat)>, g: nat, i: nat,
      qs: seq<Page>, n: nat, now: bool)
    requires i < |pols| && InRound(denied, g, i) && PassedOver(st, pols, ps, Deny(env, denied), g, 0, i, qs, n)
    ensures InRound(AlsoDenied(denied, g, i, now), g, i + 1)
    ensures var env' := Deny(env, AlsoDenied(denied, g, i, now));
      var (e, m) := st(pols[i], qs, if now then QuotaDenied else env(g, i));
      if FreesNothing(e) then PassedOver(st, pols, ps, env', g, 0, i + 1, e.pages, n + m)
      else TryAll(st, pols, ps, env', g, 0) == (e, n + m)
  {
    var env' := Deny(env, AlsoDenied(denied, g, i, now));
    PassedSame(st, pols, ps, Deny(env, denied), env', g, 0, i, qs, n);
    PassedThen(st, pols, ps, env', g, 0, i, qs, n);
    var v := if now then QuotaDenied else env(g, i);
    assert pols[i..][0] == pols[i] && env'(g, 0 + i) == v;
    if FreesNothing(st(pols[i], qs, v).0) {
      PassedMore(st, pols, ps, env', g, 0, i, qs, n);
    }
  }

  lemma {:induction false} AllPassed(
      st: Step, pols: seq<Policy>, ps: seq<Page>, env: Verdicts, g: nat, qs: seq<Page>, n: nat)
    requires PassedOver(st, pols, ps, env, g, 0, |pols|, qs, n)
    ensures TryAll(st, pols, ps, env, g, 0) == (Evicted(qs, 0), n)
  {
    PassedThen(st, pols, ps, env, g, 0, |pols|, qs, n);
  }

  // ----- rounds -----

  datatype Ending = Ending(pages: seq<Page>, raised: bool, calls: nat)

  /** The rounds: until the context fits, nothing is freed, a policy raises, or the guard is used up. */
  function Rounds(st: Step, pols: seq<Policy>, ps: seq<Page>, budget: int, guard: nat, env: Verdicts): Ending
    decreases guard
  {
    if ContextSize(ps) <= budget || guard == 0 then Ending(ps, false, 0)
    else
      var (e, n) := TryAll(st, pols, ps, env, guard, 0);
      if !Frees(e) then Ending(e.pages, e.Raises?, n)
      else
        var r := Rounds(st, pols, e.pages, budget, guard - 1, env);
        r.(calls := n + r.calls)
  }

  /** The rounds from `a` down to `guard` each freed something and led from ps to qs, with n calls. */
  predicate Reached(
      st: Step, pols: seq<Policy>, ps: seq<Page>, budget: int, a: nat, env: Verdicts, guard: nat, qs: seq<Page>, n: nat)
    decreases a
  {
    if a <= guard then a == guard && qs == ps && n == 0
    else
      && ContextSize(ps) > budget
      && var (e, m) := TryAll(st, pols, ps, env, a, 0);
      Frees(e) && n >= m && Reached(st, pols, e.pages, budget, a - 1, env, guard, qs, n - m)
  }

  lemma {:induction false} ReachedSame(
      st: Step, pols: seq<Policy>, ps: seq<Page>, budget: int, a: nat, env: Verdicts, env': Verdicts,
      guard: nat, qs: seq<Page>, n: nat)
    requires Reached(st, pols, ps, budget, a, env, guard, qs, n)
    requires forall g: nat, k: nat :: g > guard ==> env(g, k) == env'(g, k)
    ensures Reached(st, pols, ps, budget, a, env', guard, qs, n)
    decreases a
  {
    if a > guard {
      var (e, m) := TryAll(st, pols, ps, env, a, 0);
      TryAllSame(st, pols, ps, env, env', a, 0);
      ReachedSame(st, pols, e.pages, budget, a - 1, env, env', guard, qs, n - m);
    }
  }

  lemma {:induction false} ReachedMore(
      st: Step, pols: seq<Policy>, ps: seq<Page>, budget: int, a: nat, env: Verdicts, guard: nat, qs: seq<Page>, n: nat)
    requires guard > 0 && Reached(st, pols, ps, budget, a, env, guard, qs, n) && ContextSize(qs) > budget
    requires Frees(TryAll(st, pols, qs, env, guard, 0).0)
    ensures var (e, m) := TryAll(st, pols, qs, env, guard, 0);
      Reached(st, pols, ps, budget, a, env, guard - 1, e.pages, n + m)
    decreases a
  {
    if a > guard {
      var (e, m) := TryAll(st, pols, ps, env, a, 0);
      ReachedMore(st, pols, e.pages, budget, a - 1, env, guard, qs, n - m);
    }
  }

  lemma {:induction false} ReachedThen(
      st: Step, pols: seq<Policy>, ps: seq<Page>, budget: int, a: nat, env: Verdicts, guard: nat, qs: seq<Page>, n: nat)
    requires Reached(st, pols, ps, budget, a, env, guard, qs, n)
    ensures var r := Rounds(st, pols, qs, budget, guard, env);
      Rounds(st, pols, ps, budget, a, env) == r.(calls := n + r.calls)
    decreases a
  {
    if a > guard {
      var (e, m) := TryAll(st, pols, ps, env, a, 0);
      ReachedThen(st, pols, e.pages, budget, a - 1, env, guard, qs, n - m);
    }
  }

  /** One iteration of the loop over rounds, whose denials become known only now. */
  lemma {:induction false} OneRound(
      st: Step, pols: seq<Policy>, ps: seq<Page>, budget: int, a: nat, env: Verdicts,
      denied: set<(nat, nat)>, more: set<(nat, nat)>, guard: nat, qs: seq<Page>, n: nat)
    requires guard > 0 && ContextSize(qs) > budget && AboveRound(denied, guard) && InRound(more, guard, |pols|)
    requires Reached(st, pols, ps, budget, a, Deny(env, denied), guard, qs, n)
    ensures AboveRound(denied + more, guard - 1)
    ensures var env' := Deny(env, denied + more);
      var (e, m) := TryAll(st, pols, qs, Deny(env, more), guard, 0);
      if Frees(e) then Reached(st, pols, ps, budget, a, env', guard - 1, e.pages, n + m)
      else Rounds(st, pols, ps, budget, a, env') == Ending(e.pages, e.Raises?, n + m)
  {
    var met, env' := Deny(env, more), Deny(env, denied + more);
    ReachedSame(st, pols, ps, budget, a, Deny(env, denied), env', guard, qs, n);
    TryAllSame(st, pols, qs, met, env', guard, 0);
    ReachedThen(st, pols, ps, budget, a, env', guard, qs, n);
    if Frees(TryAll(st, pols, qs, met, guard, 0).0) {
      ReachedMore(st, pols, ps, budget, a, env', guard, qs, n);
    }
  }

  lemma {:induction false} RoundsOver(
      st: Step, pols: seq<Policy>, ps: seq<Page>, budget: int, a: nat, env: Verdicts, guard: nat, qs: seq<Page>, n: nat)
    requires Reached(st, pols, ps, budget, a, env, guard, qs, n) && (ContextSize(qs) <= budget || guard == 0)
    ensures Rounds(st, pols, ps, budget, a, env) == Ending(qs, false, n)
  {
    ReachedThen(st, pols, ps, budget, a, env, guard, qs, n);
  }

  // ----- the policies of the pager -----

  /** The policy's call to the model returns; it is then paid for if there is a quota. */
  predicate CallReturns(pol: Policy, ps: seq<Page>, v: Verdict) {
    pol.Summarise? && v.Wrote? && pol.batch <= |Filter(ps, IsCandidate)|
  }

  function Policies(): Step {
    (pol: Policy, ps: seq<Page>, v: Verdict) => (Evict(pol, ps, v), if CallReturns(pol, ps, v) then 1 else 0)
  }

  /** These policies, without showing what they do: the loops need not know. */
  ghost predicate ArePolicies(st: Step) {
    exists n: nat :: Sealed(st, n)
  }

  ghost predicate Sealed(st: Step, n: nat) {
    if n == 0 then st == Policies() else Sealed(st, n - 1)
  }

  lemma {:induction false} Unseal(st: Step, n: nat)
    requires Sealed(st, n)
    ensures st == Policies()
  {
    if n > 0 {
      Unseal(st, n - 1);
    }
  }

  lemma {:induction false} PoliciesAre()
    ensures ArePolicies(Policies())
  {
    assert Sealed(Policies(), 0);
  }

  lemma {:induction false} TryAllIsAttempt(
      st: Step, pols: seq<Policy>, ps: seq<Page>, env: Verdicts, g: nat, k: nat)
    requires st == Policies()
    ensures TryAll(st, pols, ps, env, g, k).0 == Attempt(pols, ps, env, g, k)
    decreases |pols|
  {
    if pols != [] {
      TryAllIsAttempt(st, pols[1..], st(pols[0], ps, env(g, k)).0.pages, env, g, k + 1);
    }
  }

  /** The loop of `assemble` is these rounds. */
  lemma {:induction false} RoundsAreAssemble(
      st: Step, pols: seq<Policy>, ps: seq<Page>, budget: int, guard: nat, env: Verdicts)
    requires st == Policies()
    ensures var r, t := Rounds(st, pols, ps, budget, guard, env), Assemble(pols, ps, budget, guard, env);
      r.pages == t.pages && r.raised == t.Aborted?
    decreases guard
  {
    if ContextSize(ps) > budget && guard > 0 {
      TryAllIsAttempt(st, pols, ps, env, guard, 0);
      RoundsAreAssemble(st, pols, Attempt(pols, ps, env, guard, 0).pages, budget, guard - 1, env);
    }
  }
}
