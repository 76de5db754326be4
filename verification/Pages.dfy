/**
 Context pages and the list operations the eviction policies are made of
 (gcos/kernel/pcb.py, gcos/memory/tokens.py, gcos/memory/context_pager.py).
 Pages are compared by value, as Python compares dataclasses, so `remove` and
 `index` find the first page equal to their argument. Time is an abstract clock.
 */
module Pages {

  datatype Page = Page(
    role: string, content: string, tokens: int, lastAccess: int, pinned: bool, summarized: bool)

  /** About four characters per token, and never 0 for a non-empty text. */
  function Estimate(text: string): (n: nat)
    ensures n == 0 <==> text == ""
    ensures 1 <= |text| < 4 ==> n == 1
    ensures |text| >= 4 ==> 4 * n <= |text| < 4 * (n + 1)
  {
    if text == "" then 0 else if |text| < 4 then 1 else |text| / 4
  }

  function Decimal(n: nat): string {
    if n < 10 then [(n + '0' as int) as char] else Decimal(n / 10) + [(n % 10 + '0' as int) as char]
  }

  function PageTokens(p: Page): nat {
    if p.tokens > 0 then p.tokens else Estimate(p.content)
  }

  function ContextSize(ps: seq<Page>): nat {
    if ps == [] then 0 else PageTokens(ps[0]) + ContextSize(ps[1..])
  }

  /** The size is what the pages count together. */
  lemma {:induction false} ContextSizeAdds(a: seq<Page>, b: seq<Page>)
    ensures ContextSize(a + b) == ContextSize(a) + ContextSize(b)
  {
    if a == [] {
      assert a + b == b;
    } else {
      assert (a + b)[1..] == a[1..] + b;
      ContextSizeAdds(a[1..], b);
    }
  }

  /** A page counts its recorded tokens, and only without any the estimate of its text. */
  lemma {:induction false} ContextSizeOfOne(p: Page)
    ensures ContextSize([]) == 0
    ensures p.tokens > 0 ==> ContextSize([p]) == p.tokens
    ensures p.tokens <= 0 ==> ContextSize([p]) == Estimate(p.content)
  {
    assert [p][1..] == [];
  }

  function Filter(ps: seq<Page>, f: Page -> bool): seq<Page> {
    if ps == [] then []
    else if f(ps[0]) then [ps[0]] + Filter(ps[1..], f)
    else Filter(ps[1..], f)
  }

  const IsPinned := (p: Page) => p.pinned
  const IsLoose := (p: Page) => !p.pinned
  const IsOriginal := (p: Page) => !p.summarized
  const IsCandidate := (p: Page) => !p.pinned && !p.summarized && p.role != "system"

  function Loose(ps: seq<Page>): seq<Page> {
    Filter(ps, IsLoose)
  }

  /** `list.remove`. */
  function Remove(ps: seq<Page>, p: Page): seq<Page> {
    if ps == [] then [] else if ps[0] == p then ps[1..] else [ps[0]] + Remove(ps[1..], p)
  }

  function RemoveAll(ps: seq<Page>, batch: seq<Page>): seq<Page>
    decreases |batch|
  {
    if batch == [] then ps else RemoveAll(Remove(ps, batch[0]), batch[1..])
  }

  /** `min(ps, key=last_access)`: the first of the least recently used pages. */
  function Stalest(ps: seq<Page>): (p: Page)
    requires ps != []
    ensures p in ps
  {
    if |ps| == 1 then ps[0]
    else
      var q := Stalest(ps[1..]);
      if ps[0].lastAccess <= q.lastAccess then ps[0] else q
  }

  /** Python's stable `sort(key=last_access)`. */
  function Sorted(ps: seq<Page>): (r: seq<Page>)
    ensures |r| == |ps|
  {
    if ps == [] then [] else InsertPage(ps[0], Sorted(ps[1..]))
  }

  /** In front of the first page that is not older. */
  function InsertPage(p: Page, ps: seq<Page>): (r: seq<Page>)
    ensures |r| == |ps| + 1
  {
    if ps == [] || p.lastAccess <= ps[0].lastAccess then [p] + ps else [ps[0]] + InsertPage(p, ps[1..])
  }

  predicate Ordered(ps: seq<Page>) {
    forall i, j :: 0 <= i < j < |ps| ==> ps[i].lastAccess <= ps[j].lastAccess
  }

  /** The n least recently used pages, oldest first. */
  function Oldest(ps: seq<Page>, n: nat): (batch: seq<Page>)
    requires n <= |ps|
    ensures |batch| == n
  {
    Sorted(ps)[..n]
  }

  // ----- filters -----

  lemma {:induction false} FilterIn(ps: seq<Page>, f: Page -> bool, p: Page)
    ensures p in Filter(ps, f) <==> p in ps && f(p)
    ensures |Filter(ps, f)| <= |ps|
  {
    if ps != [] {
      FilterIn(ps[1..], f, p);
    }
  }

  lemma {:induction false} FilterConcat(a: seq<Page>, b: seq<Page>, f: Page -> bool)
    ensures Filter(a + b, f) == Filter(a, f) + Filter(b, f)
  {
    if a == [] {
      assert a + b == b;
    } else {
      assert (a + b)[1..] == a[1..] + b;
      FilterConcat(a[1..], b, f);
    }
  }

  lemma {:induction false} FilterWeaker(ps: seq<Page>, f: Page -> bool, g: Page -> bool)
    requires forall p :: f(p) ==> g(p)
    ensures |Filter(ps, f)| <= |Filter(ps, g)|
  {
    if ps != [] {
      FilterWeaker(ps[1..], f, g);
    }
  }

  // ----- removal -----

  lemma {:induction false} RemoveLength(ps: seq<Page>, p: Page)
    ensures |Remove(ps, p)| == if p in ps then |ps| - 1 else |ps|
    ensures multiset(Remove(ps, p)) == multiset(ps) - multiset{p}
  {
    if ps != [] {
      assert ps == [ps[0]] + ps[1..];
      RemoveLength(ps[1..], p);
    }
  }

  /** Removing a page that the filter rejects is invisible to it; otherwise the two commute. */
  lemma {:induction false} FilterRemove(ps: seq<Page>, p: Page, f: Page -> bool)
    ensures Filter(Remove(ps, p), f) == if f(p) then Remove(Filter(ps, f), p) else Filter(ps, f)
  {
    if ps != [] {
      FilterRemove(ps[1..], p, f);
      if ps[0] != p {
        assert Remove(ps, p)[1..] == Remove(ps[1..], p);
        if f(ps[0]) && f(p) {
          assert Filter(ps, f)[1..] == Filter(ps[1..], f);
        }
      } else if f(p) {
        assert Filter(ps, f)[1..] == Filter(ps[1..], f);
      }
    }
  }

  lemma {:induction false} FilterRemoveAll(ps: seq<Page>, batch: seq<Page>, f: Page -> bool)
    requires forall i :: 0 <= i < |batch| ==> !f(batch[i])
    ensures Filter(RemoveAll(ps, batch), f) == Filter(ps, f)
    decreases |batch|
  {
    if batch != [] {
      FilterRemove(ps, batch[0], f);
      FilterRemoveAll(Remove(ps, batch[0]), batch[1..], f);
    }
  }

  lemma {:induction false} BatchTail(ps: seq<Page>, batch: seq<Page>)
    requires batch != [] && multiset(batch) <= multiset(ps)
    ensures batch[0] in ps && multiset(batch) == multiset{batch[0]} + multiset(batch[1..])
    ensures multiset(batch[1..]) <= multiset(ps) - multiset{batch[0]}
  {
    assert batch == [batch[0]] + batch[1..];
    assert batch[0] in multiset(batch);
    assert batch[0] in multiset(ps);
  }

  lemma {:induction false} TakeAway(a: multiset<Page>, p: Page, b: multiset<Page>)
    ensures a - (multiset{p} + b) == (a - multiset{p}) - b
  {
  }

  lemma {:induction false} RemoveAllMultiset(ps: seq<Page>, batch: seq<Page>)
    requires multiset(batch) <= multiset(ps)
    ensures multiset(RemoveAll(ps, batch)) == multiset(ps) - multiset(batch)
    ensures |RemoveAll(ps, batch)| == |ps| - |batch|
    decreases |batch|
  {
    if batch != [] {
      BatchTail(ps, batch);
      RemoveLength(ps, batch[0]);
      TakeAway(multiset(ps), batch[0], multiset(batch[1..]));
      RemoveAllMultiset(Remove(ps, batch[0]), batch[1..]);
    }
  }

  // ----- selection -----

  lemma {:induction false} StalestIsLeast(ps: seq<Page>)
    requires ps != []
    ensures forall i :: 0 <= i < |ps| ==> Stalest(ps).lastAccess <= ps[i].lastAccess
  {
    if |ps| > 1 {
      StalestIsLeast(ps[1..]);
      assert forall i :: 1 <= i < |ps| ==> ps[i] == ps[1..][i - 1];
    }
  }

  lemma {:induction false} InsertPageMultiset(p: Page, ps: seq<Page>)
    ensures multiset(InsertPage(p, ps)) == multiset{p} + multiset(ps)
  {
    if ps != [] {
      assert ps == [ps[0]] + ps[1..];
      InsertPageMultiset(p, ps[1..]);
    }
  }

  lemma {:induction false} OrderedCons(p: Page, ps: seq<Page>)
    requires Ordered(ps) && (ps != [] ==> p.lastAccess <= ps[0].lastAccess)
    ensures Ordered([p] + ps)
  {
  }

  lemma {:induction false} InsertPageOrdered(p: Page, ps: seq<Page>)
    requires Ordered(ps)
    ensures Ordered(InsertPage(p, ps))
    ensures InsertPage(p, ps)[0] == if ps == [] || p.lastAccess <= ps[0].lastAccess then p else ps[0]
  {
    if ps == [] || p.lastAccess <= ps[0].lastAccess {
      OrderedCons(p, ps);
    } else {
      InsertPageOrdered(p, ps[1..]);
      OrderedCons(ps[0], InsertPage(p, ps[1..]));
    }
  }

  lemma {:induction false} SortedSorts(ps: seq<Page>)
    ensures Ordered(Sorted(ps)) && multiset(Sorted(ps)) == multiset(ps)
  {
    if ps != [] {
      assert ps == [ps[0]] + ps[1..];
      SortedSorts(ps[1..]);
      InsertPageOrdered(ps[0], Sorted(ps[1..]));
      InsertPageMultiset(ps[0], Sorted(ps[1..]));
    }
  }

  /** A list in recency order is left as it is, equal times included. */
  lemma {:induction false} SortedOfOrdered(ps: seq<Page>)
    requires Ordered(ps)
    ensures Sorted(ps) == ps
  {
    if ps != [] {
      SortedOfOrdered(ps[1..]);
    }
  }

  lemma {:induction false} OldestSplits(ps: seq<Page>, n: nat)
    requires n <= |ps|
    ensures multiset(Oldest(ps, n)) + multiset(Sorted(ps)[n..]) == multiset(ps)
  {
    SortedSorts(ps);
    assert Sorted(ps) == Sorted(ps)[..n] + Sorted(ps)[n..];
  }

  lemma {:induction false} OldestIsPart(ps: seq<Page>, n: nat)
    requires n <= |ps|
    ensures multiset(Oldest(ps, n)) <= multiset(ps)
  {
    OldestSplits(ps, n);
  }

  lemma {:induction false} LeftAreLater(ps: seq<Page>, n: nat, q: Page)
    requires n <= |ps| && q in RemoveAll(ps, Oldest(ps, n))
    ensures q in Sorted(ps)[n..]
  {
    OldestSplits(ps, n);
    RemoveAllMultiset(ps, Oldest(ps, n));
    assert q in multiset(RemoveAll(ps, Oldest(ps, n)));
    assert q in multiset(Sorted(ps)[n..]);
  }

  /** Everything selected is at least as old as everything left behind. */
  lemma {:induction false} OldestAreOldest(ps: seq<Page>, n: nat, p: Page, q: Page)
    requires n <= |ps| && p in Oldest(ps, n) && q in RemoveAll(ps, Oldest(ps, n))
    ensures p.lastAccess <= q.lastAccess
  {
    var s := Sorted(ps);
    SortedSorts(ps);
    LeftAreLater(ps, n, q);
    var i :| 0 <= i < n && s[..n][i] == p;
    var j :| 0 <= j < |s[n..]| && s[n..][j] == q;
    assert s[i] == p && s[n + j] == q;
  }

  lemma {:induction false} MultisetFilter(ps: seq<Page>, f: Page -> bool)
    ensures multiset(Filter(ps, f)) <= multiset(ps)
  {
    if ps != [] {
      assert ps == [ps[0]] + ps[1..];
      MultisetFilter(ps[1..], f);
    }
  }
}
