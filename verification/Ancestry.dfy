/** Walking up the process tree (gcos/kernel/process_tree.py): when it ends, and what it returns. */
module Ancestry {
  import opened Basics
  import opened ProcessTree

  /** The agent n steps up the parent links, through registered agents. */
  function Up(t: Table, x: Pid, n: nat): Option<Pid>
    decreases n
  {
    if x !in t then None
    else if n == 0 then Some(x)
    else if t[x].parent.None? then None
    else Up(t, t[x].parent.value, n - 1)
  }

  /** The walk up from x ends. */
  ghost predicate Ends(t: Table, x: Pid) {
    exists n: nat :: Up(t, x, n).None?
  }

  predicate IsAncestor(t: Table, root: Pid, x: Pid, n: nat) {
    n >= 1 && Up(t, x, n) == Some(root)
  }

  /** `ancestors_of`: the whole chain, nearest first, whenever the walk ends at all. */
  method AncestorsOf(t: Table, pid: Pid) returns (out: seq<Pid>)
    requires Ends(t, pid)
    ensures forall k :: 0 <= k < |out| ==> Up(t, pid, k + 1) == Some(out[k])
    ensures Up(t, pid, |out| + 1).None?
  {
    out := [];
    if pid !in t {
      return;
    }
    var cur := pid;
    ghost var n: nat :| Up(t, pid, n).None?;
    while t[cur].parent.Some?
      invariant cur in t && Up(t, cur, n).None? && Up(t, pid, |out|) == Some(cur)
      invariant forall k :: 0 <= k < |out| ==> Up(t, pid, k + 1) == Some(out[k])
      decreases n
    {
      var p := t[cur].parent.value;
      UpCompose(t, pid, |out|, 1);
      if p !in t {
        return;
      }
      out := out + [p];
      cur := p;
      n := n - 1;
    }
    UpCompose(t, pid, |out|, 1);
  }

  lemma {:induction false} UpCompose(t: Table, x: Pid, m: nat, n: nat)
    requires Up(t, x, m).Some?
    ensures Up(t, x, m + n) == Up(t, Up(t, x, m).value, n)
    decreases m
  {
    if m > 0 {
      UpCompose(t, t[x].parent.value, m - 1, n);
    }
  }

  lemma {:induction false} UpPrefix(t: Table, x: Pid, m: nat, n: nat)
    requires Up(t, x, n).Some? && m <= n
    ensures Up(t, x, m).Some?
    decreases m
  {
    if m > 0 {
      UpPrefix(t, t[x].parent.value, m - 1, n - 1);
    }
  }

  // ----- when every walk up ends -----

  ghost predicate Grounded(t: Table) {
    forall x: Pid :: Ends(t, x)
  }

  /** The chain of parents that starts at x comes to `target`, registered or not. */
  ghost predicate LeadsTo(t: Table, x: Pid, target: Pid) {
    x == target || exists n: nat :: Names(t, x, n, target)
  }

  predicate Names(t: Table, x: Pid, n: nat, target: Pid) {
    var y := Up(t, x, n);
    y.Some? && y.value in t && t[y.value].parent == Some(target)
  }

  /** Registered agents keep their parents, and at most `extra` is new. */
  ghost predicate Extends(t: Table, t': Table, extra: Pid) {
    && extra !in t && t'.Keys == t.Keys + {extra}
    && forall x :: x in t ==> t'[x].parent == t[x].parent
  }

  lemma {:induction false} SameWalk(t: Table, t': Table, extra: Pid, x: Pid, n: nat)
    requires Extends(t, t', extra)
    ensures Up(t, x, n).Some? ==> Up(t', x, n) == Up(t, x, n)
    ensures !LeadsTo(t, x, extra) ==> Up(t', x, n) == Up(t, x, n)
    decreases n
  {
    if x in t && n > 0 && t[x].parent.Some? {
      var p := t[x].parent.value;
      SameWalk(t, t', extra, p, n - 1);
      if LeadsTo(t, p, extra) {
        if p == extra {
          assert Names(t, x, 0, extra);
        } else {
          var k: nat :| Names(t, p, k, extra);
          assert Names(t, x, k + 1, extra);
        }
      }
    }
  }

  /** A walk that comes back to its start goes on for ever. */
  lemma {:induction false} CycleNeverEnds(t: Table, x: Pid, k: nat, n: nat)
    requires k >= 1 && Up(t, x, k) == Some(x)
    ensures Up(t, x, n).Some?
    decreases n
  {
    if n <= k {
      UpPrefix(t, x, n, k);
    } else {
      UpCompose(t, x, k, n - k);
      CycleNeverEnds(t, x, k, n - k);
    }
  }

  lemma {:induction false} LoopsWhenLedBack(t: Table, t': Table, next: Pid, parent: Pid)
    requires Extends(t, t', next) && t'[next].parent == Some(parent) && LeadsTo(t, parent, next)
    ensures !Ends(t', next)
  {
    ghost var k: nat := 1;
    if parent == next {
      assert Up(t', next, 1) == Some(next);
    } else {
      var n: nat :| Names(t, parent, n, next);
      SameWalk(t, t', next, parent, n);
      UpCompose(t', parent, n, 1);
      k := n + 2;
      assert Up(t', next, k) == Some(next);
    }
    forall n: nat
      ensures Up(t', next, n).Some?
    {
      CycleNeverEnds(t', next, k, n);
    }
  }

  lemma {:induction false} NewcomerEnds(t: Table, t': Table, next: Pid, parent: Option<Pid>)
    requires Extends(t, t', next) && t'[next].parent == parent && Grounded(t)
    requires parent.None? || !LeadsTo(t, parent.value, next)
    ensures Ends(t', next)
  {
    if parent.None? {
      assert Up(t', next, 1).None?;
    } else {
      assert Ends(t, parent.value);
      var n: nat :| Up(t, parent.value, n).None?;
      SameWalk(t, t', next, parent.value, n);
      assert Up(t', next, n + 1).None?;
    }
  }

  lemma {:induction false} OthersEnd(t: Table, t': Table, next: Pid, x: Pid)
    requires Extends(t, t', next) && Ends(t, x) && Ends(t', next)
    ensures Ends(t', x)
  {
    if !LeadsTo(t, x, next) {
      var n: nat :| Up(t, x, n).None?;
      SameWalk(t, t', next, x, n);
    } else if x != next {
      var n: nat :| Names(t, x, n, next);
      var m: nat :| Up(t', next, m).None?;
      SameWalk(t, t', next, x, n);
      UpCompose(t', x, n, m + 1);
      assert Up(t', x, n + (m + 1)).None?;
    }
  }

  /**
   The exact condition for `ancestors_of`: a spawn keeps every walk up finite if
   and only if the chain of parents it names does not already lead to the PID
   about to be handed out. The chain is finite, so a caller can follow it first.
   */
  lemma {:induction false} SpawnKeepsGrounded(t: Table, next: Pid, parent: Option<Pid>)
    requires Links(t, next) && Grounded(t)
    ensures Grounded(Spawned(t, next, parent)) <==> !(parent.Some? && LeadsTo(t, parent.value, next))
  {
    var t' := Spawned(t, next, parent);
    assert Extends(t, t', next);
    if parent.Some? && LeadsTo(t, parent.value, next) {
      LoopsWhenLedBack(t, t', next, parent.value);
    } else {
      NewcomerEnds(t, t', next, parent);
      forall x: Pid
        ensures Ends(t', x)
      {
        OthersEnd(t, t', next, x);
      }
    }
  }

  lemma {:induction false} UpIsOlder(t: Table, x: Pid, n: nat)
    requires forall c :: c in t && t[c].parent.Some? ==> t[c].parent.value < c
    ensures Up(t, x, n).Some? ==> Up(t, x, n).value + n <= x
    decreases n
  {
    if x in t && n > 0 && t[x].parent.Some? {
      UpIsOlder(t, t[x].parent.value, n - 1);
    }
  }

  /** In particular every walk up in a forest ends. */
  lemma {:induction false} ForestIsGrounded(t: Table, next: Pid)
    requires Forest(t, next)
    ensures Grounded(t)
  {
    forall x: Pid
      ensures Ends(t, x)
    {
      UpIsOlder(t, x, x + 1);
    }
  }

  /** Fewer agents with the same parents: walks only get shorter. */
  lemma {:induction false} FewerKeepsGrounded(t: Table, t': Table)
    requires Grounded(t) && t'.Keys <= t.Keys && forall x :: x in t' ==> t'[x].parent == t[x].parent
    ensures Grounded(t')
  {
    forall x: Pid
      ensures Ends(t', x)
    {
      assert Ends(t, x);
      var n: nat :| Up(t, x, n).None?;
      ShorterWalk(t, t', x, n);
    }
  }

  lemma {:induction false} ShorterWalk(t: Table, t': Table, x: Pid, n: nat)
    requires t'.Keys <= t.Keys && forall x :: x in t' ==> t'[x].parent == t[x].parent
    ensures Up(t, x, n).None? ==> Up(t', x, n).None?
    decreases n
  {
    if x in t' && n > 0 && t[x].parent.Some? {
      ShorterWalk(t, t', t[x].parent.value, n - 1);
    }
  }

  /** In a forest walking down and walking up agree. */
  lemma {:induction false} DescendantsAndAncestorsAgree(t: Table, next: Pid, root: Pid, x: Pid)
    requires Forest(t, next)
    ensures IsDescendant(t, root, x) <==> exists n: nat :: IsAncestor(t, root, x, n)
    decreases x
  {
    if x in t && t[x].parent.Some? && t[x].parent.value in t {
      var p := t[x].parent.value;
      DescendantsAndAncestorsAgree(t, next, root, p);
      assert IsChild(t, p, x);
      if IsDescendant(t, root, x) {
        var q :| 0 <= q < x && IsChild(t, q, x) && (q == root || IsDescendant(t, root, q));
        if q == root {
          assert IsAncestor(t, root, x, 1);
        } else {
          var n: nat :| IsAncestor(t, root, p, n);
          assert IsAncestor(t, root, x, n + 1);
        }
      }
      if n: nat :| IsAncestor(t, root, x, n) {
        assert n == 1 || IsAncestor(t, root, p, n - 1);
      }
    } else {
      assert forall n: nat :: n >= 1 ==> Up(t, x, n).None?;
    }
  }
}
