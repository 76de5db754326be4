/**
 The shared budget of LLM calls (gcos/kernel/quota.py). Each method body is one
 lock-protected section, so the functions below are the atomic steps that the
 dispatch protocol uses.
 */
module Quotas {
  import opened Basics

  datatype Account = Account(total: int, remaining: int) {
    function Used(): int {
      total - remaining
    }
  }

  function Open(total: nat): Account {
    Account(total, total)
  }

  predicate CanTake(acc: Account, n: int) {
    n <= acc.remaining
  }

  function Take(acc: Account, n: int): Account {
    acc.(remaining := acc.remaining - n)
  }

  /** How much `acquire_up_to(n)` grants. */
  function Grant(acc: Account, n: int): (take: nat)
    ensures take <= Max(0, n) && take <= Max(0, acc.remaining)
    ensures take == n || take == acc.remaining || take == 0
  {
    Max(0, Min(n, acc.remaining))
  }

  /** `refund(n)` is capped at the total. */
  function Refund(acc: Account, n: int): Account {
    acc.(remaining := Min(acc.total, acc.remaining + n))
  }

  function Topup(acc: Account, n: int): Account {
    Account(acc.total + n, acc.remaining + n)
  }

  /** The cap loses nothing exactly when no more is handed back than is in use. */
  lemma {:induction false} RefundIsExact(acc: Account, n: int)
    ensures Refund(acc, n).Used() == acc.Used() - n <==> n <= acc.Used()
  {
  }

  class Quota {
    var total: int
    var remaining: int

    function Value(): Account
      reads this
    {
      Account(total, remaining)
    }

    constructor (n: nat)
      ensures Value() == Open(n)
    {
      total, remaining := n, n;
    }

    method Acquire(n: int) returns (ok: bool)
      modifies this`remaining
      ensures ok <==> CanTake(old(Value()), n)
      ensures Value() == if ok then Take(old(Value()), n) else old(Value())
    {
      if remaining < n {
        return false;
      }
      remaining := remaining - n;
      return true;
    }

    method AcquireUpTo(n: int) returns (take: nat)
      modifies this`remaining
      ensures take == Grant(old(Value()), n)
      ensures Value() == Take(old(Value()), take)
    {
      take := Max(0, Min(n, remaining));
      remaining := remaining - take;
    }

    method GiveBack(n: int)
      modifies this`remaining
      ensures Value() == Refund(old(Value()), n)
    {
      remaining := Min(total, remaining + n);
    }

    method Raise(n: int)
      modifies this
      ensures Value() == Topup(old(Value()), n)
    {
      total, remaining := total + n, remaining + n;
    }
  }
}
