/**
 The context pager (gcos/memory/context_pager.py) and its eviction policies
 (gcos/memory/evict_lru.py, gcos/memory/evict_summarize.py, gcos/memory/swap.py,
 gcos/memory/__init__.py), as functions on the page list.
 */
module Pager {
  import opened Basics
  import opened Pages

  const GUARD := 16

  datatype Policy = Lru(minKeep: nat) | Summarise(batch: nat) | Swap(batch: nat, minKeep: nat)

  /** What the environment does with a summarise attempt that has enough pages. */
  datatype Verdict = QuotaDenied | CallRaised | Wrote(text: string, tokens: int, now: int)

  /** A policy that raises leaves the pages as they are, but policies before it may have changed them. */
  datatype Eviction = Evicted(pages: seq<Page>, freed: nat) | Raises(pages: seq<Page>)

  /** The page that replaces n others: it says how many, and counts what the model reports or the estimate. */
  function SummaryPage(n: nat, v: Verdict): Page
    requires v.Wrote?
  {
    Page("system", "[Summary of " + Decimal(n) + " prior turns]\n" + v.text,
         if v.tokens > 0 then v.tokens else Estimate(v.text), v.now, false, true)
  }

  function IndexOf(ps: seq<Page>, p: Page): (i: nat)
    ensures i <= |ps| && (i < |ps| ==> ps[i] == p) && (p in ps ==> i < |ps|) && p !in ps[..i]
  {
    if ps == [] || ps[0] == p then 0
    else
      var i := 1 + IndexOf(ps[1..], p);
      assert ps[..i] == [ps[0]] + ps[1..][..i - 1];
      i
  }

  /** `list.insert`: an index past the end appends. */
  function Insert(ps: seq<Page>, at: nat, p: Page): seq<Page> {
    var k := if at <= |ps| then at else |ps|;
    ps[..k] + [p] + ps[k..]
  }

  function EvictLru(ps: seq<Page>, minKeep: nat): Eviction {
    if |Loose(ps)| <= minKeep then Evicted(ps, 0)
    else Evicted(Remove(ps, Stalest(Loose(ps))), 1)
  }

  /** A batch size of 0 makes the source index an empty batch. */
  function EvictSummarise(ps: seq<Page>, n: nat, v: Verdict): Eviction {
    var candidates := Filter(ps, IsCandidate);
    if |candidates| < n || v.QuotaDenied? then Evicted(ps, 0)
    else if v.CallRaised? || n == 0 then Raises(ps)
    else
      var batch := Oldest(candidates, n);
      Evicted(Insert(RemoveAll(ps, batch), IndexOf(ps, batch[0]), SummaryPage(n, v)), n - 1)
  }

  /** The pages a swap-out writes: the floor gates entry only, a batch may go below it. */
  function SwapBatch(ps: seq<Page>, n: nat, minKeep: nat): seq<Page> {
    var loose := Loose(ps);
    if |loose| <= minKeep then [] else Oldest(loose, Min(n, |loose|))
  }

  function EvictSwap(ps: seq<Page>, n: nat, minKeep: nat): Eviction {
    var batch := SwapBatch(ps, n, minKeep);
    Evicted(RemoveAll(ps, batch), |batch|)
  }

  function Evict(pol: Policy, ps: seq<Page>, v: Verdict): Eviction {
    match pol
    case Lru(k) => EvictLru(ps, k)
    case Summarise(n) => EvictSummarise(ps, n, v)
    case Swap(n, k) => EvictSwap(ps, n, k)
  }

  /** Policies in order until one frees something; `env(g, k)` is the verdict on policy k in round g. */
  function Attempt(pols: seq<Policy>, ps: seq<Page>, env: (nat, nat) -> Verdict, g: nat, k: nat): Eviction
    decreases |pols|
  {
    if pols == [] then Evicted(ps, 0)
    else
      var e := Evict(pols[0], ps, env(g, k));
      if e.Raises? || e.freed > 0 then e else Attempt(pols[1..], e.pages, env, g, k + 1)
  }

  datatype Assembly =
    | Assembled(pages: seq<Page>, evictions: nat, freed: nat, stuck: bool)
    | Aborted(pages: seq<Page>, evictions: nat, freed: nat)

  /** The guarded loop of `assemble`; rounds are numbered by what is left of the guard. */
  function Assemble(pols: seq<Policy>, ps: seq<Page>, budget: int, guard: nat, env: (nat, nat) -> Verdict): Assembly
    decreases guard
  {
    if ContextSize(ps) <= budget || guard == 0 then Assembled(ps, 0, 0, false)
    else
      var e := Attempt(pols, ps, env, guard, 0);
      if e.Raises? then Aborted(e.pages, 0, 0)
      else if e.freed == 0 then Assembled(e.pages, 0, 0, true)
      else
        var r := Assemble(pols, e.pages, budget, guard - 1, env);
        if r.Aborted? then Aborted(r.pages, r.evictions + 1, r.freed + e.freed)
        else Assembled(r.pages, r.evictions + 1, r.freed + e.freed, r.stuck)
  }

  /** The same outcome: both raise, or both end with the same pages. */
  predicate SameOutcome(a: Assembly, b: Assembly) {
    a.Aborted? == b.Aborted? && a.pages == b.pages
  }

  lemma {:induction false} AssembleRound(
      pols: seq<Policy>, ps: seq<Page>, budget: int, guard: nat, env: (nat, nat) -> Verdict)
    requires ContextSize(ps) > budget && guard > 0
    ensures var r, e := Assemble(pols, ps, budget, guard, env), Attempt(pols, ps, env, guard, 0);
      match e
      case Raises(qs) => r.Aborted? && r.pages == qs
      case Evicted(qs, freed) =>
        if freed == 0 then r.Assembled? && r.pages == qs
        else SameOutcome(r, Assemble(pols, qs, budget, guard - 1, env))
  {
  }

  // ----- what every eviction keeps -----

  /** a can be obtained from b by deleting entries: relative order is kept. */
  predicate Subsequence(a: seq<Page>, b: seq<Page>)
    decreases |b|
  {
    a == [] || (b != [] && (if a[0] == b[0] then Subsequence(a[1..], b[1..]) else Subsequence(a, b[1..])))
  }

  lemma {:induction false} SubsequenceSelf(a: seq<Page>)
    ensures Subsequence(a, a)
  {
    if a != [] {
      SubsequenceSelf(a[1..]);
    }
  }

  /** Greedy matching loses nothing. */
  lemma {:induction false} SubsequenceDrop(a: seq<Page>, b: seq<Page>)
    requires a != [] && Subsequence(a, b)
    ensures Subsequence(a[1..], b)
    decreases |b|
  {
    if a[0] == b[0] {
      SubsequenceWiden(a[1..], b);
    } else {
      SubsequenceDrop(a, b[1..]);
      SubsequenceWiden(a[1..], b);
    }
  }

  lemma {:induction false} SubsequenceWiden(a: seq<Page>, b: seq<Page>)
    requires b != [] && Subsequence(a, b[1..])
    ensures Subsequence(a, b)
    decreases |b|, 0
  {
    if a != [] && a[0] == b[0] {
      SubsequenceDrop(a, b[1..]);
    }
  }

  lemma {:induction false} SubsequenceTrans(a: seq<Page>, b: seq<Page>, c: seq<Page>)
    requires Subsequence(a, b) && Subsequence(b, c)
    ensures Subsequence(a, c)
    decreases |c|
  {
    if a != [] {
      if b[0] == c[0] {
        if a[0] == b[0] {
          SubsequenceTrans(a[1..], b[1..], c[1..]);
        } else {
          SubsequenceTrans(a, b[1..], c[1..]);
        }
      } else {
        SubsequenceTrans(a, b, c[1..]);
        SubsequenceWiden(a, c);
      }
    }
  }

  lemma {:induction false} RemoveSubsequence(ps: seq<Page>, p: Page)
    ensures Subsequence(Remove(ps, p), ps)
  {
    if ps != [] {
      if ps[0] == p {
        SubsequenceSelf(ps[1..]);
        SubsequenceWiden(ps[1..], ps);
      } else {
        RemoveSubsequence(ps[1..], p);
        assert Remove(ps, p)[1..] == Remove(ps[1..], p);
      }
    }
  }

  lemma {:induction false} RemoveAllSubsequence(ps: seq<Page>, batch: seq<Page>)
    ensures Subsequence(RemoveAll(ps, batch), ps)
    decreases |batch|
  {
    if batch == [] {
      SubsequenceSelf(ps);
    } else {
      var rest := Remove(ps, batch[0]);
      RemoveSubsequence(ps, batch[0]);
      RemoveAllSubsequence(rest, batch[1..]);
      SubsequenceTrans(RemoveAll(ps, batch), rest, ps);
    }
  }

  lemma {:induction false} SubsequenceFilter(a: seq<Page>, b: seq<Page>, f: Page -> bool)
    requires Subsequence(a, b)
    ensures Subsequence(Filter(a, f), Filter(b, f))
    decreases |b|
  {
    if a != [] {
      if a[0] == b[0] {
        SubsequenceFilter(a[1..], b[1..], f);
      } else {
        SubsequenceFilter(a, b[1..], f);
        if f(b[0]) {
          assert Filter(b, f)[1..] == Filter(b[1..], f);
          SubsequenceWiden(Filter(a, f), Filter(b, f));
        }
      }
    }
  }

  /** b comes from a by deleting pages and inserting new ones: every other page of b keeps its place among a's. */
  predicate Edited(a: seq<Page>, b: seq<Page>, news: set<Page>)
    decreases |a| + |b|
  {
    || b == []
    || (a != [] && Edited(a[1..], b, news))
    || (a != [] && a[0] == b[0] && Edited(a[1..], b[1..], news))
    || (b[0] in news && Edited(a, b[1..], news))
  }

  lemma {:induction false} SubsequenceIsEdited(a: seq<Page>, b: seq<Page>, news: set<Page>)
    requires Subsequence(b, a)
    ensures Edited(a, b, news)
    decreases |a|
  {
    if b != [] {
      SubsequenceIsEdited(a[1..], if a[0] == b[0] then b[1..] else b, news);
    }
  }

  lemma {:induction false} EditedMore(a: seq<Page>, b: seq<Page>, news: set<Page>, more: set<Page>)
    requires Edited(a, b, news) && news <= more
    ensures Edited(a, b, more)
    decreases |a| + |b|
  {
    if b != [] {
      if a != [] && Edited(a[1..], b, news) {
        EditedMore(a[1..], b, news, more);
      } else if a != [] && a[0] == b[0] && Edited(a[1..], b[1..], news) {
        EditedMore(a[1..], b[1..], news, more);
      } else {
        EditedMore(a, b[1..], news, more);
      }
    }
  }

  lemma {:induction false} EditedInsert(a: seq<Page>, x: seq<Page>, p: Page, y: seq<Page>, news: set<Page>)
    requires Edited(a, x + y, news) && p in news
    ensures Edited(a, x + [p] + y, news)
    decreases |a| + |x|
  {
    var b, b' := x + y, x + [p] + y;
    if x == [] {
      assert b == y && b'[1..] == y;
    } else {
      assert b[1..] == x[1..] + y && b'[1..] == x[1..] + [p] + y;
      if a != [] && Edited(a[1..], b, news) {
        EditedInsert(a[1..], x, p, y, news);
      } else if a != [] && a[0] == b[0] && Edited(a[1..], b[1..], news) {
        EditedInsert(a[1..], x[1..], p, y, news);
      } else {
        EditedInsert(a, x[1..], p, y, news);
      }
    }
  }

  lemma {:induction false} EditedDrop(a: seq<Page>, b: seq<Page>, news: set<Page>)
    requires b != [] && Edited(a, b, news)
    ensures Edited(a, b[1..], news)
    decreases |a|
  {
    if a != [] && Edited(a[1..], b, news) {
      EditedDrop(a[1..], b, news);
    }
  }

  lemma {:induction false} EditedTrans(a: seq<Page>, b: seq<Page>, c: seq<Page>, news: set<Page>)
    requires Edited(a, b, news) && Edited(b, c, news)
    ensures Edited(a, c, news)
    decreases |a| + |b| + |c|
  {
    if c != [] {
      if b != [] && Edited(b[1..], c, news) {
        EditedDrop(a, b, news);
        EditedTrans(a, b[1..], c, news);
      } else if b != [] && b[0] == c[0] && Edited(b[1..], c[1..], news) {
        if a != [] && Edited(a[1..], b, news) {
          EditedTrans(a[1..], b, c, news);
        } else if a != [] && a[0] == b[0] && Edited(a[1..], b[1..], news) {
          EditedTrans(a[1..], b[1..], c[1..], news);
        }
      } else {
        EditedTrans(a, b, c[1..], news);
      }
    }
  }

  /**
   Pinned pages all survive in order, every survivor keeps its place relative to
   the others, only the summaries `news` are inserted, surviving original pages
   form a subsequence, and the count shrinks by exactly the reported amount.
   */
  predicate Kept(ps: seq<Page>, ps': seq<Page>, freed: nat, news: set<Page>) {
    && Filter(ps', IsPinned) == Filter(ps, IsPinned)
    && Subsequence(Filter(ps', IsOriginal), Filter(ps, IsOriginal))
    && Edited(ps, ps', news)
    && |ps'| + freed == |ps|
  }

  lemma {:induction false} KeptTrans(a: seq<Page>, b: seq<Page>, c: seq<Page>, m: nat, n: nat, news: set<Page>)
    requires Kept(a, b, m, news) && Kept(b, c, n, news)
    ensures Kept(a, c, m + n, news)
  {
    SubsequenceTrans(Filter(c, IsOriginal), Filter(b, IsOriginal), Filter(a, IsOriginal));
    EditedTrans(a, b, c, news);
  }

  lemma {:induction false} KeptSelf(a: seq<Page>, news: set<Page>)
    ensures Kept(a, a, 0, news) && Subsequence(a, a)
  {
    SubsequenceSelf(Filter(a, IsOriginal));
    SubsequenceSelf(a);
    SubsequenceIsEdited(a, a, news);
  }

  /** Removing a batch of unpinned pages. */
  lemma {:induction false} RemoveAllKept(ps: seq<Page>, batch: seq<Page>, news: set<Page>)
    requires multiset(batch) <= multiset(ps) && forall i :: 0 <= i < |batch| ==> !batch[i].pinned
    ensures Kept(ps, RemoveAll(ps, batch), |batch|, news) && Subsequence(RemoveAll(ps, batch), ps)
  {
    FilterRemoveAll(ps, batch, IsPinned);
    RemoveAllMultiset(ps, batch);
    RemoveAllSubsequence(ps, batch);
    SubsequenceFilter(RemoveAll(ps, batch), ps, IsOriginal);
    SubsequenceIsEdited(ps, RemoveAll(ps, batch), news);
  }

  /** A selection from a filtered list is a part of the list, and passes the filter. */
  lemma {:induction false} SelectionOk(ps: seq<Page>, f: Page -> bool, n: nat)
    requires n <= |Filter(ps, f)|
    ensures var batch := Oldest(Filter(ps, f), n);
      multiset(batch) <= multiset(ps) && forall i :: 0 <= i < |batch| ==> f(batch[i]) && batch[i] in ps
  {
    var c := Filter(ps, f);
    var batch := Oldest(c, n);
    MultisetFilter(ps, f);
    OldestIsPart(c, n);
    forall i | 0 <= i < |batch|
      ensures f(batch[i]) && batch[i] in ps
    {
      assert batch[i] in multiset(batch);
      assert batch[i] in multiset(c);
      FilterIn(ps, f, batch[i]);
    }
  }

  lemma {:induction false} LruKeeps(ps: seq<Page>, minKeep: nat, news: set<Page>)
    ensures var e := EvictLru(ps, minKeep); Kept(ps, e.pages, e.freed, news) && Subsequence(e.pages, ps)
  {
    var loose := Loose(ps);
    if |loose| <= minKeep {
      KeptSelf(ps, news);
    } else {
      var p := Stalest(loose);
      FilterIn(ps, IsLoose, p);
      FilterRemove(ps, p, IsPinned);
      RemoveLength(ps, p);
      RemoveSubsequence(ps, p);
      SubsequenceFilter(Remove(ps, p), ps, IsOriginal);
      SubsequenceIsEdited(ps, Remove(ps, p), news);
    }
  }

  lemma {:induction false} FilterInsert(ps: seq<Page>, at: nat, p: Page, f: Page -> bool)
    requires !f(p)
    ensures Filter(Insert(ps, at, p), f) == Filter(ps, f)
  {
    var k := if at <= |ps| then at else |ps|;
    FilterConcat(ps[..k] + [p], ps[k..], f);
    FilterConcat(ps[..k], [p], f);
    FilterConcat(ps[..k], ps[k..], f);
    assert Filter([p], f) == [];
    assert ps[..k] + ps[k..] == ps;
  }

  /** The page that a policy meeting this verdict can add. */
  function Written(pol: Policy, v: Verdict): set<Page> {
    if pol.Summarise? && v.Wrote? then {SummaryPage(pol.batch, v)} else {}
  }

  /** One summary stands in the list; without it, what is left is the old list with pages deleted. */
  ghost predicate OneInserted(ps: seq<Page>, ps': seq<Page>, p: Page) {
    exists a, b :: ps' == a + [p] + b && Subsequence(a + b, ps)
  }

  predicate WritesSummary(ps: seq<Page>, n: nat, v: Verdict) {
    v.Wrote? && 1 <= n <= |Filter(ps, IsCandidate)|
  }

  lemma {:induction false} SummariseKeeps(ps: seq<Page>, n: nat, v: Verdict)
    requires EvictSummarise(ps, n, v).Evicted?
    ensures var e := EvictSummarise(ps, n, v);
      && Kept(ps, e.pages, e.freed, Written(Summarise(n), v))
      && (if WritesSummary(ps, n, v) then OneInserted(ps, e.pages, SummaryPage(n, v)) else e.pages == ps)
  {
    var c := Filter(ps, IsCandidate);
    if |c| < n || v.QuotaDenied? {
      KeptSelf(ps, Written(Summarise(n), v));
    } else {
      var batch := Oldest(c, n);
      SelectionOk(ps, IsCandidate, n);
      RemoveAllKept(ps, batch, Written(Summarise(n), v));
      var rest, at, p := RemoveAll(ps, batch), IndexOf(ps, batch[0]), SummaryPage(n, v);
      FilterInsert(rest, at, p, IsPinned);
      FilterInsert(rest, at, p, IsOriginal);
      InsertedOnce(ps, rest, at, p, Written(Summarise(n), v));
    }
  }

  lemma {:induction false} InsertedOnce(ps: seq<Page>, rest: seq<Page>, at: nat, p: Page, news: set<Page>)
    requires Subsequence(rest, ps) && Edited(ps, rest, news) && p in news
    ensures OneInserted(ps, Insert(rest, at, p), p) && Edited(ps, Insert(rest, at, p), news)
  {
    var k := if at <= |rest| then at else |rest|;
    assert rest[..k] + rest[k..] == rest;
    EditedInsert(ps, rest[..k], p, rest[k..], news);
  }

  lemma {:induction false} SwapKeeps(ps: seq<Page>, n: nat, minKeep: nat, news: set<Page>)
    ensures var batch := SwapBatch(ps, n, minKeep);
      && multiset(batch) <= multiset(ps)
      && Kept(ps, RemoveAll(ps, batch), |batch|, news) && Subsequence(RemoveAll(ps, batch), ps)
  {
    var loose := Loose(ps);
    if |loose| > minKeep {
      SelectionOk(ps, IsLoose, Min(n, |loose|));
      RemoveAllKept(ps, SwapBatch(ps, n, minKeep), news);
    } else {
      KeptSelf(ps, news);
    }
  }

  function Freed(e: Eviction): nat {
    if e.Evicted? then e.freed else 0
  }

  /** Whatever the policy and the model do. LRU and swap only delete; summarising inserts exactly its summary. */
  lemma {:induction false} EvictKeeps(pol: Policy, ps: seq<Page>, v: Verdict)
    ensures var e := Evict(pol, ps, v);
      && Kept(ps, e.pages, Freed(e), Written(pol, v))
      && (e.Raises? ==> e.pages == ps)
      && (if e.Evicted? && pol.Summarise? && WritesSummary(ps, pol.batch, v)
          then OneInserted(ps, e.pages, SummaryPage(pol.batch, v))
          else Subsequence(e.pages, ps))
  {
    match pol
    case Lru(k) => LruKeeps(ps, k, Written(pol, v));
    case Summarise(n) =>
      KeptSelf(ps, Written(pol, v));
      if EvictSummarise(ps, n, v).Evicted? {
        SummariseKeeps(ps, n, v);
      }
    case Swap(n, k) => SwapKeeps(ps, n, k, Written(pol, v));
  }

  /** Everything that can be written within `guard` rounds over the policies. */
  function AllWritten(env: (nat, nat) -> Verdict, guard: nat, pols: seq<Policy>): set<Page> {
    set g: nat, k: nat | g <= guard && k < |pols| && pols[k].Summarise? && env(g, k).Wrote?
      :: SummaryPage(pols[k].batch, env(g, k))
  }

  lemma {:induction false} AttemptKeeps(
      pols: seq<Policy>, ps: seq<Page>, env: (nat, nat) -> Verdict, g: nat, k: nat, news: set<Page>)
    requires forall i: nat :: k <= i < k + |pols| ==> Written(pols[i - k], env(g, i)) <= news
    ensures Kept(ps, Attempt(pols, ps, env, g, k).pages, Freed(Attempt(pols, ps, env, g, k)), news)
    decreases |pols|
  {
    if pols == [] {
      KeptSelf(ps, news);
    } else {
      var e := Evict(pols[0], ps, env(g, k));
      EvictKeeps(pols[0], ps, env(g, k));
      assert Written(pols[k - k], env(g, k)) <= news;
      EditedMore(ps, e.pages, Written(pols[0], env(g, k)), news);
      if e.Evicted? && e.freed == 0 {
        AttemptKeeps(pols[1..], e.pages, env, g, k + 1, news);
        KeptTrans(ps, e.pages, Attempt(pols, ps, env, g, k).pages, 0, Freed(Attempt(pols, ps, env, g, k)), news);
      }
    }
  }

  // ----- what a tier takes -----

  /** The n pages are unpinned ones the policy may take, and nobody left behind that it may take is older. */
  predicate OldestTaken(ps: seq<Page>, batch: seq<Page>, spared: set<string>, summaries: bool) {
    && (forall p :: p in batch ==> MayGo(p, spared, summaries))
    && (forall p, q :: p in batch && q in RemoveAll(ps, batch) && MayGo(q, spared, summaries)
                       ==> p.lastAccess <= q.lastAccess)
  }

  predicate MayGo(p: Page, spared: set<string>, summaries: bool) {
    !p.pinned && p.role !in spared && (summaries || !p.summarized)
  }

  lemma {:induction false} OldestOfFilter(ps: seq<Page>, f: Page -> bool, n: nat, p: Page, q: Page)
    requires n <= |Filter(ps, f)| && p in Oldest(Filter(ps, f), n)
    requires f(q) && q in RemoveAll(ps, Oldest(Filter(ps, f), n))
    ensures f(p) && p.lastAccess <= q.lastAccess
  {
    var c := Filter(ps, f);
    var batch := Oldest(c, n);
    SelectionOk(ps, f, n);
    var i :| 0 <= i < |batch| && batch[i] == p;
    FilterRemovesAll(ps, batch, f);
    FilterIn(RemoveAll(ps, batch), f, q);
    OldestAreOldest(c, n, p, q);
  }

  lemma {:induction false} FilterRemovesAll(ps: seq<Page>, batch: seq<Page>, f: Page -> bool)
    requires forall i :: 0 <= i < |batch| ==> f(batch[i])
    ensures Filter(RemoveAll(ps, batch), f) == RemoveAll(Filter(ps, f), batch)
    decreases |batch|
  {
    if batch != [] {
      FilterRemove(ps, batch[0], f);
      FilterRemovesAll(Remove(ps, batch[0]), batch[1..], f);
    }
  }

  /**
   A summary replaces exactly its batch: the oldest pages that are neither pinned
   nor summaries nor from the system, as many as the policy says.
   */
  lemma {:induction false} SummaryReplacesTheOldest(ps: seq<Page>, n: nat, v: Verdict)
    requires WritesSummary(ps, n, v)
    ensures var batch := Oldest(Filter(ps, IsCandidate), n);
      && |batch| == n && multiset(batch) <= multiset(ps) && OldestTaken(ps, batch, {"system"}, false)
      && multiset(EvictSummarise(ps, n, v).pages) == multiset(ps) - multiset(batch) + multiset{SummaryPage(n, v)}
  {
    var batch := Oldest(Filter(ps, IsCandidate), n);
    SelectionOk(ps, IsCandidate, n);
    RemoveAllMultiset(ps, batch);
    InsertMultiset(RemoveAll(ps, batch), IndexOf(ps, batch[0]), SummaryPage(n, v));
    CandidatesTaken(ps, n);
  }

  lemma {:induction false} CandidatesTaken(ps: seq<Page>, n: nat)
    requires n <= |Filter(ps, IsCandidate)|
    ensures OldestTaken(ps, Oldest(Filter(ps, IsCandidate), n), {"system"}, false)
  {
    var batch := Oldest(Filter(ps, IsCandidate), n);
    SelectionOk(ps, IsCandidate, n);
    forall p | p in batch
      ensures MayGo(p, {"system"}, false)
    {
      var i :| 0 <= i < |batch| && batch[i] == p;
    }
    forall p, q | p in batch && q in RemoveAll(ps, batch) && MayGo(q, {"system"}, false)
      ensures p.lastAccess <= q.lastAccess
    {
      OldestOfFilter(ps, IsCandidate, n, p, q);
    }
  }

  lemma {:induction false} InsertMultiset(ps: seq<Page>, at: nat, p: Page)
    ensures multiset(Insert(ps, at, p)) == multiset(ps) + multiset{p}
  {
    var k := if at <= |ps| then at else |ps|;
    assert ps[..k] + ps[k..] == ps;
  }

  /** A swap-out takes exactly its batch: the oldest unpinned pages, whatever their role. */
  lemma {:induction false} SwapTakesTheOldest(ps: seq<Page>, n: nat, minKeep: nat)
    ensures var batch := SwapBatch(ps, n, minKeep);
      && multiset(batch) <= multiset(ps) && OldestTaken(ps, batch, {}, true)
      && multiset(EvictSwap(ps, n, minKeep).pages) == multiset(ps) - multiset(batch)
  {
    var batch := SwapBatch(ps, n, minKeep);
    if |Loose(ps)| > minKeep {
      var m := Min(n, |Loose(ps)|);
      SelectionOk(ps, IsLoose, m);
      RemoveAllMultiset(ps, batch);
      forall p | p in batch
        ensures MayGo(p, {}, true)
      {
        var i :| 0 <= i < |batch| && batch[i] == p;
      }
      forall p, q | p in batch && q in RemoveAll(ps, batch) && MayGo(q, {}, true)
        ensures p.lastAccess <= q.lastAccess
      {
        OldestOfFilter(ps, IsLoose, m, p, q);
      }
    }
  }

  /** LRU takes the least recently used unpinned page once more than the floor are there. */
  lemma {:induction false} LruTakesTheOldest(ps: seq<Page>, minKeep: nat)
    ensures |Loose(ps)| <= minKeep ==> EvictLru(ps, minKeep) == Evicted(ps, 0)
    ensures |Loose(ps)| > minKeep ==>
              var p := Stalest(Loose(ps));
              && p in ps && EvictLru(ps, minKeep) == Evicted(Remove(ps, p), 1)
              && multiset(Remove(ps, p)) == multiset(ps) - multiset{p} && !p.pinned
              && forall q :: q in ps && !q.pinned ==> p.lastAccess <= q.lastAccess
  {
    if |Loose(ps)| > minKeep {
      var p := Stalest(Loose(ps));
      FilterIn(ps, IsLoose, p);
      RemoveLength(ps, p);
      StalestIsLeast(Loose(ps));
      forall q | q in ps && !q.pinned
        ensures p.lastAccess <= q.lastAccess
      {
        FilterIn(ps, IsLoose, q);
      }
    }
  }

  /** A summary is never summarised again, and weighs what the model reported or the estimate of its text. */
  lemma {:induction false} SummariesWeigh(n: nat, v: Verdict)
    requires v.Wrote?
    ensures !IsCandidate(SummaryPage(n, v)) && !SummaryPage(n, v).pinned
    ensures v.tokens > 0 ==> PageTokens(SummaryPage(n, v)) == v.tokens
    ensures v.tokens <= 0 && v.text != "" ==> PageTokens(SummaryPage(n, v)) == Estimate(v.text)
  {
  }

  // ----- the swap floor -----

  lemma {:induction false} LooseShrinks(ps: seq<Page>, batch: seq<Page>)
    requires multiset(batch) <= multiset(ps) && forall i :: 0 <= i < |batch| ==> !batch[i].pinned
    ensures |Loose(RemoveAll(ps, batch))| == |Loose(ps)| - |batch|
    decreases |batch|
  {
    if batch != [] {
      var p, rest := batch[0], batch[1..];
      assert batch == [p] + rest;
      assert p in multiset(batch) && p in multiset(ps);
      FilterIn(ps, IsLoose, p);
      FilterRemove(ps, p, IsLoose);
      RemoveLength(Loose(ps), p);
      RemoveLength(ps, p);
      LooseShrinks(Remove(ps, p), rest);
    }
  }

  /** A swap-out takes min(n, what is there) unpinned pages once more than the floor are there, and none otherwise. */
  lemma {:induction false} SwapTakes(ps: seq<Page>, n: nat, minKeep: nat)
    ensures var left, loose := |Loose(EvictSwap(ps, n, minKeep).pages)|, |Loose(ps)|;
      left == if loose <= minKeep then loose else loose - Min(n, loose)
  {
    var loose := Loose(ps);
    if |loose| > minKeep {
      SelectionOk(ps, IsLoose, Min(n, |loose|));
      LooseShrinks(ps, SwapBatch(ps, n, minKeep));
    }
  }

  /**
   The floor of the swap tier gates entry only. A swap-out goes below it if and
   only if a positive floor is exceeded by fewer pages than a batch takes.
   */
  lemma {:induction false} SwapGoesBelowFloorExactlyWhen(ps: seq<Page>, n: nat, minKeep: nat)
    ensures |Loose(EvictSwap(ps, n, minKeep).pages)| < Min(minKeep, |Loose(ps)|)
       <==> 0 < minKeep < |Loose(ps)| < minKeep + n
  {
    SwapTakes(ps, n, minKeep);
  }

  /** So with the default batch and floor of 2, three unpinned pages leave one. */
  lemma {:induction false} DefaultSwapLeavesOneOfThree(p: Page, q: Page, r: Page)
    requires !p.pinned && !q.pinned && !r.pinned
    ensures |Loose([p, q, r])| == 3 && |Loose(EvictSwap([p, q, r], 2, 2).pages)| == 1
  {
    var ps := [p, q, r];
    assert ps[1..] == [q, r] && [q, r][1..] == [r] && [r][1..] == [];
    assert Loose([r]) == [r] + Loose([]);
    assert Loose([q, r]) == [q] + Loose([r]);
    SwapTakes(ps, 2, 2);
  }

  // ----- the outcome of assemble, for any stack -----

  /** Summarising fewer than two pages frees nothing. */
  predicate Sane(pols: seq<Policy>) {
    forall i :: 0 <= i < |pols| && pols[i].Summarise? ==> pols[i].batch >= 2
  }

  predicate NobodyCanFree(pols: seq<Policy>, ps: seq<Page>, env: (nat, nat) -> Verdict, g: nat, k: nat) {
    forall i :: 0 <= i < |pols| ==> Evict(pols[i], ps, env(g, k + i)) == Evicted(ps, 0)
  }

  lemma {:induction false} AttemptFreesNothing(
      pols: seq<Policy>, ps: seq<Page>, env: (nat, nat) -> Verdict, g: nat, k: nat)
    requires Sane(pols) && Attempt(pols, ps, env, g, k).Evicted? && Attempt(pols, ps, env, g, k).freed == 0
    ensures Attempt(pols, ps, env, g, k).pages == ps && NobodyCanFree(pols, ps, env, g, k)
    decreases |pols|
  {
    if pols != [] {
      var e := Evict(pols[0], ps, env(g, k));
      assert e == Evicted(ps, 0);
      AttemptFreesNothing(pols[1..], ps, env, g, k + 1);
      forall i | 0 <= i < |pols|
        ensures Evict(pols[i], ps, env(g, k + i)) == Evicted(ps, 0)
      {
        if i > 0 {
          assert pols[i] == pols[1..][i - 1];
          assert env(g, k + i) == env(g, k + 1 + (i - 1));
        }
      }
    }
  }

  /** What can be said of the result of `assemble`, the list of pages apart. */
  predicate EndsWell(pols: seq<Policy>, budget: int, guard: nat, env: (nat, nat) -> Verdict, r: Assembly) {
    && r.evictions <= guard && r.evictions <= r.freed
    && if r.Assembled? then
         && (ContextSize(r.pages) <= budget || r.stuck || r.evictions == guard)
         && (r.stuck ==> NobodyCanFree(pols, r.pages, env, guard - r.evictions, 0))
       else
         && r.evictions < guard && ContextSize(r.pages) > budget
         && SomebodyRaises(pols, r.pages, env, guard - r.evictions)
  }

  predicate SomebodyRaises(pols: seq<Policy>, ps: seq<Page>, env: (nat, nat) -> Verdict, g: nat) {
    exists i: nat :: i < |pols| && Evict(pols[i], ps, env(g, i)).Raises?
  }

  /** The policy that raised, and what it raised on. */
  lemma {:induction false} AttemptRaises(
      pols: seq<Policy>, ps: seq<Page>, env: (nat, nat) -> Verdict, g: nat, k: nat) returns (i: nat)
    requires Sane(pols) && Attempt(pols, ps, env, g, k).Raises?
    ensures Attempt(pols, ps, env, g, k).pages == ps
    ensures i < |pols| && Evict(pols[i], ps, env(g, k + i)).Raises?
    decreases |pols|
  {
    var e := Evict(pols[0], ps, env(g, k));
    i := 0;
    if e.Evicted? {
      assert e == Evicted(ps, 0);
      i := AttemptRaises(pols[1..], ps, env, g, k + 1);
      assert pols[1..][i] == pols[i + 1];
      i := i + 1;
    }
  }

  /**
   `assemble` ends within budget, or with no policy able to free a page in the
   round it stopped at, or after exactly as many evictions as the guard allows,
   or because a policy raised; in each case it keeps what every eviction keeps.
   */
  lemma {:induction false} AssembleOutcome(
      pols: seq<Policy>, ps: seq<Page>, budget: int, guard: nat, env: (nat, nat) -> Verdict)
    requires Sane(pols)
    ensures var r := Assemble(pols, ps, budget, guard, env);
      EndsWell(pols, budget, guard, env, r) && Kept(ps, r.pages, r.freed, AllWritten(env, guard, pols))
  {
    AssembleEnds(pols, ps, budget, guard, env);
    AssembleKeeps(pols, ps, budget, guard, env, AllWritten(env, guard, pols));
  }

  lemma {:induction false} RaisedBySomebody(pols: seq<Policy>, ps: seq<Page>, env: (nat, nat) -> Verdict, g: nat)
    requires Sane(pols) && Attempt(pols, ps, env, g, 0).Raises?
    ensures Attempt(pols, ps, env, g, 0).pages == ps && SomebodyRaises(pols, ps, env, g)
  {
    var i := AttemptRaises(pols, ps, env, g, 0);
    assert Evict(pols[i], ps, env(g, i)).Raises?;
  }

  lemma {:induction false} AssembleEnds(
      pols: seq<Policy>, ps: seq<Page>, budget: int, guard: nat, env: (nat, nat) -> Verdict)
    requires Sane(pols)
    ensures EndsWell(pols, budget, guard, env, Assemble(pols, ps, budget, guard, env))
    decreases guard
  {
    if ContextSize(ps) > budget && guard > 0 {
      var e := Attempt(pols, ps, env, guard, 0);
      if e.Raises? {
        RaisedBySomebody(pols, ps, env, guard);
      } else if e.freed == 0 {
        AttemptFreesNothing(pols, ps, env, guard, 0);
      } else {
        AssembleEnds(pols, e.pages, budget, guard - 1, env);
      }
    }
  }

  lemma {:induction false} AssembleKeeps(
      pols: seq<Policy>, ps: seq<Page>, budget: int, guard: nat, env: (nat, nat) -> Verdict, news: set<Page>)
    requires forall g: nat, k: nat :: g <= guard && k < |pols| ==> Written(pols[k], env(g, k)) <= news
    ensures var r := Assemble(pols, ps, budget, guard, env); Kept(ps, r.pages, r.freed, news)
    decreases guard
  {
    if ContextSize(ps) <= budget || guard == 0 {
      KeptSelf(ps, news);
    } else {
      var e := Attempt(pols, ps, env, guard, 0);
      AttemptKeeps(pols, ps, env, guard, 0, news);
      if e.Evicted? && e.freed > 0 {
        AssembleKeeps(pols, e.pages, budget, guard - 1, env, news);
        var r := Assemble(pols, e.pages, budget, guard - 1, env);
        KeptTrans(ps, e.pages, r.pages, e.freed, r.freed, news);
      }
    }
  }

  // ----- the default stack: the later tiers never fire -----

  const DEFAULT_POLICIES := [Lru(2), Summarise(4), Swap(2, 2)]

  lemma {:induction false} LaterTiersAreDead(ps: seq<Page>, env: (nat, nat) -> Verdict, g: nat, h: nat)
    ensures Attempt(DEFAULT_POLICIES, ps, env, g, 0) == Attempt([Lru(2)], ps, env, h, 0) == EvictLru(ps, 2)
  {
    var tail := DEFAULT_POLICIES[1..];
    assert DEFAULT_POLICIES[0] == Lru(2) && tail == [Summarise(4), Swap(2, 2)];
    LruAlone([Lru(2)], ps, env, h, 2);
    if |Loose(ps)| <= 2 {
      FilterWeaker(ps, IsCandidate, IsLoose);
      assert Evict(Summarise(4), ps, env(g, 1)) == Evicted(ps, 0);
      assert Evict(Swap(2, 2), ps, env(g, 2)) == Evicted(ps, 0);
      assert tail[1..] == [Swap(2, 2)] && tail[1..][1..] == [];
      assert Attempt(tail[1..], ps, env, g, 2) == Evicted(ps, 0);
    }
  }

  /** Whatever the pages: the three-tier stack does exactly what LRU alone does, and never raises. */
  lemma {:induction false} DefaultStackIsLru(ps: seq<Page>, budget: int, guard: nat, env: (nat, nat) -> Verdict)
    ensures Assemble(DEFAULT_POLICIES, ps, budget, guard, env) == Assemble([Lru(2)], ps, budget, guard, env)
    ensures Assemble([Lru(2)], ps, budget, guard, env).Assembled?
    decreases guard
  {
    if ContextSize(ps) > budget && guard > 0 {
      LaterTiersAreDead(ps, env, guard, guard);
      if |Loose(ps)| > 2 {
        DefaultStackIsLru(EvictLru(ps, 2).pages, budget, guard - 1, env);
      }
    }
  }

  // ----- closed form: when recency agrees with list order -----

  lemma {:induction false} StalestOfOrdered(ps: seq<Page>)
    requires ps != [] && Ordered(ps)
    ensures Stalest(ps) == ps[0]
  {
    if |ps| > 1 {
      StalestOfOrdered(ps[1..]);
    }
  }

  /** Without the first m unpinned pages. */
  function DropLoose(ps: seq<Page>, m: nat): seq<Page> {
    if m == 0 || ps == [] then ps
    else if ps[0].pinned then [ps[0]] + DropLoose(ps[1..], m)
    else DropLoose(ps[1..], m - 1)
  }

  lemma {:induction false} DropOne(ps: seq<Page>)
    requires Loose(ps) != []
    ensures DropLoose(ps, 1) == Remove(ps, Loose(ps)[0])
    ensures Loose(DropLoose(ps, 1)) == Loose(ps)[1..]
  {
    if ps[0].pinned {
      DropOne(ps[1..]);
      FilterIn(ps[1..], IsLoose, Loose(ps)[0]);
      assert DropLoose(ps, 1)[1..] == DropLoose(ps[1..], 1);
    } else {
      assert DropLoose(ps[1..], 0) == ps[1..];
    }
  }

  lemma {:induction false} DropOneMore(ps: seq<Page>, m: nat)
    ensures DropLoose(DropLoose(ps, 1), m) == DropLoose(ps, m + 1)
  {
    if ps != [] && ps[0].pinned {
      DropOneMore(ps[1..], m);
      assert DropLoose(ps, 1)[1..] == DropLoose(ps[1..], 1);
    }
  }

  /** The fewest drops that fit the budget, if any number up to the limit does; else the limit. */
  function Drops(ps: seq<Page>, budget: int, limit: nat): nat
    decreases limit
  {
    if ContextSize(ps) <= budget || limit == 0 then 0 else 1 + Drops(DropLoose(ps, 1), budget, limit - 1)
  }

  /** `Drops` is that number. */
  lemma {:induction false} DropsIsLeast(ps: seq<Page>, budget: int, limit: nat)
    ensures var m := Drops(ps, budget, limit);
      && m <= limit
      && (forall j: nat :: j < m ==> ContextSize(DropLoose(ps, j)) > budget)
      && (m < limit ==> ContextSize(DropLoose(ps, m)) <= budget)
    decreases limit
  {
    if ContextSize(ps) > budget && limit > 0 {
      var qs := DropLoose(ps, 1);
      DropsIsLeast(qs, budget, limit - 1);
      var m := Drops(qs, budget, limit - 1);
      forall j: nat | j < m + 1
        ensures ContextSize(DropLoose(ps, j)) > budget
      {
        if j > 0 {
          DropOneMore(ps, j - 1);
        }
      }
      DropOneMore(ps, m);
    }
  }

  function DropLimit(ps: seq<Page>, guard: nat, floor: nat): nat {
    Min(guard, if |Loose(ps)| <= floor then 0 else |Loose(ps)| - floor)
  }

  /** One LRU eviction from an ordered list drops the first unpinned page. */
  lemma {:induction false} LruDropsFirst(ps: seq<Page>, floor: nat)
    requires Ordered(Loose(ps)) && |Loose(ps)| > floor
    ensures EvictLru(ps, floor) == Evicted(DropLoose(ps, 1), 1)
    ensures Loose(DropLoose(ps, 1)) == Loose(ps)[1..] && Ordered(Loose(DropLoose(ps, 1)))
  {
    StalestOfOrdered(Loose(ps));
    DropOne(ps);
  }

  lemma {:induction false} LruAlone(pols: seq<Policy>, ps: seq<Page>, env: (nat, nat) -> Verdict, g: nat, floor: nat)
    requires pols == [Lru(floor)]
    ensures Attempt(pols, ps, env, g, 0) == EvictLru(ps, floor)
  {
    assert pols[1..] == [];
  }

  /** One round of the LRU-only loop. */
  lemma {:induction false} LruRound(
      pols: seq<Policy>, ps: seq<Page>, budget: int, guard: nat, env: (nat, nat) -> Verdict, floor: nat)
    requires pols == [Lru(floor)]
    requires Ordered(Loose(ps)) && ContextSize(ps) > budget && guard > 0 && |Loose(ps)| > floor
    ensures SameOutcome(
              Assemble(pols, ps, budget, guard, env), Assemble(pols, DropLoose(ps, 1), budget, guard - 1, env))
    ensures Ordered(Loose(DropLoose(ps, 1)))
    ensures DropLimit(DropLoose(ps, 1), guard - 1, floor) == DropLimit(ps, guard, floor) - 1
  {
    LruAlone(pols, ps, env, guard, floor);
    LruDropsFirst(ps, floor);
    AssembleRound(pols, ps, budget, guard, env);
  }

  lemma {:induction false} LruStops(
      pols: seq<Policy>, ps: seq<Page>, budget: int, guard: nat, env: (nat, nat) -> Verdict, floor: nat)
    requires pols == [Lru(floor)]
    requires ContextSize(ps) <= budget || guard == 0 || |Loose(ps)| <= floor
    ensures var r := Assemble(pols, ps, budget, guard, env); r.Assembled? && r.pages == ps
    ensures Drops(ps, budget, DropLimit(ps, guard, floor)) == 0
  {
    LruAlone(pols, ps, env, guard, floor);
  }

  lemma {:induction false} DropsRound(ps: seq<Page>, budget: int, limit: nat)
    requires ContextSize(ps) > budget && limit > 0
    ensures var qs := DropLoose(ps, 1);
      DropLoose(ps, Drops(ps, budget, limit)) == DropLoose(qs, Drops(qs, budget, limit - 1))
  {
    DropOneMore(ps, Drops(DropLoose(ps, 1), budget, limit - 1));
  }

  /** The page lists that the LRU loop and the FIFO drops end with are the same. */
  predicate EndsWith(r: Assembly, ps: seq<Page>) {
    r.Assembled? && r.pages == ps
  }

  /** The FIFO result: the fewest drops that fit, within the limit. */
  function FifoPages(ps: seq<Page>, budget: int, guard: nat, floor: nat): seq<Page> {
    DropLoose(ps, Drops(ps, budget, DropLimit(ps, guard, floor)))
  }

  lemma {:induction false} FifoRound(ps: seq<Page>, budget: int, guard: nat, floor: nat)
    requires ContextSize(ps) > budget && guard > 0 && |Loose(ps)| > floor
    requires DropLimit(DropLoose(ps, 1), guard - 1, floor) == DropLimit(ps, guard, floor) - 1
    ensures FifoPages(ps, budget, guard, floor) == FifoPages(DropLoose(ps, 1), budget, guard - 1, floor)
  {
    DropsRound(ps, budget, DropLimit(ps, guard, floor));
  }

  lemma {:induction false} LruIsFifo(
      pols: seq<Policy>, ps: seq<Page>, budget: int, guard: nat, env: (nat, nat) -> Verdict, floor: nat)
    requires pols == [Lru(floor)] && Ordered(Loose(ps))
    ensures EndsWith(Assemble(pols, ps, budget, guard, env), FifoPages(ps, budget, guard, floor))
    decreases guard
  {
    if ContextSize(ps) <= budget || guard == 0 || |Loose(ps)| <= floor {
      LruStops(pols, ps, budget, guard, env, floor);
    } else {
      var qs := DropLoose(ps, 1);
      LruRound(pols, ps, budget, guard, env, floor);
      LruIsFifo(pols, qs, budget, guard - 1, env, floor);
      FifoRound(ps, budget, guard, floor);
    }
  }

  /**
   The default pager in closed form: when unpinned pages are in recency order,
   it drops exactly the shortest prefix of them that makes the context fit,
   limited to 16 drops and to a floor of 2.
   */
  lemma {:induction false} DefaultPagerClosedForm(ps: seq<Page>, budget: int, env: (nat, nat) -> Verdict)
    requires Ordered(Loose(ps))
    ensures GUARD == 16
    ensures var r, limit := Assemble(DEFAULT_POLICIES, ps, budget, GUARD, env), DropLimit(ps, GUARD, 2);
      && r.Assembled?
      && exists m: nat :: m <= limit && r.pages == DropLoose(ps, m)
           && (forall j: nat :: j < m ==> ContextSize(DropLoose(ps, j)) > budget)
           && (m == limit || ContextSize(r.pages) <= budget)
  {
    DefaultStackIsLru(ps, budget, GUARD, env);
    LruIsFifo([Lru(2)], ps, budget, GUARD, env, 2);
    DropsIsLeast(ps, budget, DropLimit(ps, GUARD, 2));
  }

  // ----- recency agrees with list order throughout an agent's life -----

  /** `touch` on every page, in list order. */
  function Touch(ps: seq<Page>, clock: nat -> int): (r: seq<Page>)
    ensures |r| == |ps|
    ensures forall i :: 0 <= i < |ps| ==> r[i] == ps[i].(lastAccess := clock(i))
  {
    seq(|ps|, i requires 0 <= i < |ps| => ps[i].(lastAccess := clock(i)))
  }

  /** A clock that never runs backwards, read from time `now` on. */
  ghost predicate Monotone(clock: nat -> int, now: int) {
    clock(0) >= now && forall i: nat, j: nat :: i <= j ==> clock(i) <= clock(j)
  }

  predicate RecencyAgrees(ps: seq<Page>, now: int) {
    Ordered(Loose(ps)) && forall i :: 0 <= i < |ps| ==> ps[i].lastAccess <= now
  }

  /** What happens to an agent's page list between calls. */
  datatype Op =
    | Compose(budget: int, env: (nat, nat) -> Verdict, clock: nat -> int)  // the default pager assembles
    | Append(page: Page)                                            // a turn is recorded
    | PinFront(page: Page)                                          // the coder's system prompt

  ghost predicate OpOk(op: Op, now: int, now': int, count: nat) {
    now <= now' &&
    match op
    case Compose(_, _, clock) => Monotone(clock, now) && clock(count) <= now'
    case Append(p) => now <= p.lastAccess <= now'
    case PinFront(p) => p.pinned && p.lastAccess <= now'
  }

  function ApplyOp(ps: seq<Page>, op: Op): seq<Page> {
    match op
    case Compose(budget, env, clock) =>
      var r := Assemble(DEFAULT_POLICIES, ps, budget, GUARD, env);
      if r.Aborted? then r.pages else Touch(r.pages, clock)
    case Append(p) => ps + [p]
    case PinFront(p) => [p] + ps
  }

  lemma {:induction false} FilterOrdered(ps: seq<Page>, f: Page -> bool)
    requires Ordered(ps)
    ensures Ordered(Filter(ps, f))
  {
    if ps != [] {
      FilterOrdered(ps[1..], f);
      var rest := Filter(ps[1..], f);
      forall i | 0 <= i < |rest|
        ensures ps[0].lastAccess <= rest[i].lastAccess
      {
        FilterIn(ps[1..], f, rest[i]);
        var j :| 0 <= j < |ps[1..]| && ps[1..][j] == rest[i];
        assert ps[j + 1] == rest[i];
      }
    }
  }

  /** Touching and appending under a monotone clock keep the premise of the closed form. */
  lemma {:induction false} RecencyIsKept(ps: seq<Page>, op: Op, now: int, now': int)
    requires RecencyAgrees(ps, now) && OpOk(op, now, now', |ps|)
    ensures RecencyAgrees(ApplyOp(ps, op), now')
  {
    match op
    case Compose(budget, env, clock) =>
      DefaultStackIsLru(ps, budget, GUARD, env);
      assert Sane(DEFAULT_POLICIES);
      AssembleOutcome(DEFAULT_POLICIES, ps, budget, GUARD, env);
      var qs := ApplyOp(ps, op);
      assert |qs| <= |ps|;
      assert Ordered(qs);
      FilterOrdered(qs, IsLoose);
    case Append(p) =>
      FilterConcat(ps, [p], IsLoose);
      assert Filter([p], IsLoose) == if p.pinned then [] else [p];
      forall i | 0 <= i < |Loose(ps)|
        ensures Loose(ps)[i].lastAccess <= now
      {
        FilterIn(ps, IsLoose, Loose(ps)[i]);
      }
    case PinFront(p) =>
      FilterConcat([p], ps, IsLoose);
      assert Filter([p], IsLoose) == [];
  }

  function Life(ps: seq<Page>, ops: seq<Op>): seq<Page>
    decreases |ops|
  {
    if ops == [] then ps else Life(ApplyOp(ps, ops[0]), ops[1..])
  }

  /** The clock readings `times` fit the operations: they never run backwards. */
  ghost predicate Timed(ps: seq<Page>, ops: seq<Op>, times: seq<int>)
    decreases |ops|
  {
    |times| == |ops| + 1 &&
    (ops != [] ==> OpOk(ops[0], times[0], times[1], |ps|) && Timed(ApplyOp(ps, ops[0]), ops[1..], times[1..]))
  }

  /** So the closed form applies at every point of every life that never swaps pages back in. */
  lemma {:induction false} RecencyHoldsForLife(ps: seq<Page>, ops: seq<Op>, times: seq<int>)
    requires Timed(ps, ops, times) && RecencyAgrees(ps, times[0])
    ensures RecencyAgrees(Life(ps, ops), times[|ops|])
    decreases |ops|
  {
    if ops != [] {
      RecencyIsKept(ps, ops[0], times[0], times[1]);
      RecencyHoldsForLife(ApplyOp(ps, ops[0]), ops[1..], times[1..]);
    }
  }

  // ----- where the summary goes -----

  lemma {:induction false} RemoveSkips(a: seq<Page>, b: seq<Page>, p: Page)
    requires p !in a
    ensures Remove(a + b, p) == a + Remove(b, p)
  {
    if a == [] {
      assert a + b == b;
    } else {
      assert (a + b)[1..] == a[1..] + b;
      RemoveSkips(a[1..], b, p);
    }
  }

  lemma {:induction false} RemoveAllSkips(a: seq<Page>, b: seq<Page>, batch: seq<Page>)
    requires forall i :: 0 <= i < |batch| ==> batch[i] !in a
    ensures RemoveAll(a + b, batch) == a + RemoveAll(b, batch)
    decreases |batch|
  {
    if batch != [] {
      RemoveSkips(a, b, batch[0]);
      RemoveAllSkips(a, Remove(b, batch[0]), batch[1..]);
    }
  }

  /** No page of the batch sits in front of the batch's first page. */
  lemma {:induction false} FirstFiltered(ps: seq<Page>, f: Page -> bool)
    requires Filter(ps, f) != []
    ensures var at := IndexOf(ps, Filter(ps, f)[0]);
      at < |ps| && forall i :: 0 <= i < at ==> !f(ps[i])
  {
    var p := Filter(ps, f)[0];
    FilterIn(ps, f, p);
    if !f(ps[0]) {
      FirstFiltered(ps[1..], f);
      FilterIn(ps[1..], f, p);
      assert IndexOf(ps, p) == 1 + IndexOf(ps[1..], p);
      assert forall i :: 1 <= i < |ps| ==> ps[i] == ps[1..][i - 1];
    }
  }

  lemma {:induction false} BatchStartsHere(ps: seq<Page>, n: nat)
    requires 1 <= n <= |Filter(ps, IsCandidate)|
    ensures var c := Filter(ps, IsCandidate);
      var at := IndexOf(ps, c[0]);
      at < |ps| && forall i :: 0 <= i < n ==> c[..n][i] !in ps[..at]
  {
    var c := Filter(ps, IsCandidate);
    FirstFiltered(ps, IsCandidate);
    forall i | 0 <= i < n
      ensures c[..n][i] !in ps[..IndexOf(ps, c[0])]
    {
      FilterIn(ps, IsCandidate, c[i]);
    }
  }

  lemma {:induction false} InsertBetween(a: seq<Page>, b: seq<Page>, p: Page)
    ensures Insert(a + b, |a|, p) == a + [p] + b
  {
  }

  lemma {:induction false} SplitAtBatch(ps: seq<Page>, at: nat, batch: seq<Page>, p: Page)
    requires at <= |ps| && forall i :: 0 <= i < |batch| ==> batch[i] !in ps[..at]
    ensures Insert(RemoveAll(ps, batch), at, p) == ps[..at] + [p] + RemoveAll(ps[at..], batch)
  {
    assert ps[..at] + ps[at..] == ps;
    RemoveAllSkips(ps[..at], ps[at..], batch);
    InsertBetween(ps[..at], RemoveAll(ps[at..], batch), p);
  }

  /** When candidate recency agrees with list order, the summary takes the first replaced page's place. */
  lemma {:induction false} SummaryLandsInPlace(ps: seq<Page>, n: nat, v: Verdict)
    requires n >= 1 && v.Wrote? && n <= |Filter(ps, IsCandidate)| && Ordered(Filter(ps, IsCandidate))
    ensures var qs := EvictSummarise(ps, n, v).pages;
            var first := Filter(ps, IsCandidate)[0];
            var at := IndexOf(ps, first);
      at < |ps| && at < |qs| && ps[at] == first && qs[..at] == ps[..at] && qs[at] == SummaryPage(n, v)
  {
    var c := Filter(ps, IsCandidate);
    var at, batch := IndexOf(ps, c[0]), c[..n];
    SortedOfOrdered(c);
    assert EvictSummarise(ps, n, v).pages == Insert(RemoveAll(ps, batch), at, SummaryPage(n, v));
    BatchStartsHere(ps, n);
    SplitAtBatch(ps, at, batch, SummaryPage(n, v));
  }
}
