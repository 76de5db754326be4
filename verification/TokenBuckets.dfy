/**
 The rate limiter of the backend (gcos/backend/batcher.py). Every attempt is one
 lock-protected section that reads the monotonic clock, so any interleaving of
 callers is a sequence of attempts with non-decreasing times. Times and token
 levels are reals: rounding is not modelled.
 */
module TokenBuckets {

  datatype Bucket = Bucket(rate: real, capacity: real, tokens: real, last: real)

  /** One pass through the locked section: how much is asked for, and the clock reading. */
  datatype Try = Try(n: nat, now: real)

  predicate Sound(b: Bucket) {
    b.rate > 0.0 && 0.0 <= b.tokens <= b.capacity
  }

  function Open(rate: real, capacity: real, now: real): Bucket {
    Bucket(rate, capacity, capacity, now)
  }

  function Capped(c: real, x: real): real {
    if x < c then x else c
  }

  /** What flows in between two times. */
  function Flow(rate: real, s: real, t: real): (f: real)
    ensures rate > 0.0 && s <= t ==> f >= 0.0
  {
    (t - s) * rate
  }

  lemma {:induction false} FlowAdds(rate: real, r: real, s: real, t: real)
    ensures Flow(rate, r, s) + Flow(rate, s, t) == Flow(rate, r, t)
  {
  }

  function Refill(b: Bucket, now: real): Bucket {
    b.(tokens := Capped(b.capacity, b.tokens + Flow(b.rate, b.last, now)), last := now)
  }

  predicate Succeeds(b: Bucket, e: Try) {
    Refill(b, e.now).tokens >= e.n as real
  }

  function After(b: Bucket, e: Try): Bucket {
    var r := Refill(b, e.now);
    if Succeeds(b, e) then r.(tokens := r.tokens - e.n as real) else r
  }

  /** How long the caller computes it has to wait after a failed attempt. */
  function Wait(b: Bucket, n: nat): real
    requires b.rate != 0.0
  {
    (n as real - b.tokens) / b.rate
  }

  // ----- any interleaving of callers -----

  /** The clock never goes back, neither below `last` nor from one attempt to the next. */
  ghost predicate Ordered(last: real, es: seq<Try>) {
    && (es != [] ==> last <= es[0].now)
    && forall i, j :: 0 <= i < j < |es| ==> es[i].now <= es[j].now
  }

  function AfterAll(b: Bucket, es: seq<Try>): Bucket
    decreases |es|
  {
    if es == [] then b else AfterAll(After(b, es[0]), es[1..])
  }

  /** The amount handed out over a run of attempts. */
  function Granted(b: Bucket, es: seq<Try>): nat
    decreases |es|
  {
    if es == [] then 0
    else (if Succeeds(b, es[0]) then es[0].n else 0) + Granted(After(b, es[0]), es[1..])
  }

  lemma {:induction false} AttemptKeepsSound(b: Bucket, e: Try)
    requires Sound(b) && b.last <= e.now
    ensures Sound(After(b, e)) && After(b, e).last == e.now
    ensures After(b, e).rate == b.rate && After(b, e).capacity == b.capacity
    ensures After(b, e).tokens + (if Succeeds(b, e) then e.n as real else 0.0) <= b.tokens + Flow(b.rate, b.last, e.now)
    ensures After(b, e).tokens + (if Succeeds(b, e) then e.n as real else 0.0) <= b.capacity
  {
  }

  /**
   One attempt exactly: the level on arrival is the old level plus the inflow, but
   never more than the capacity; the attempt succeeds exactly when the level
   covers it, and takes exactly what was asked for.
   */
  lemma {:induction false} AttemptIsExact(b: Bucket, e: Try)
    requires Sound(b) && b.last <= e.now
    ensures var level := After(b, e).tokens + if Succeeds(b, e) then e.n as real else 0.0;
      && (level == b.tokens + (e.now - b.last) * b.rate || level == b.capacity)
      && level <= b.tokens + (e.now - b.last) * b.rate && level <= b.capacity
      && (Succeeds(b, e) <==> level >= e.n as real)
  {
  }

  lemma {:induction false} OrderedTail(last: real, es: seq<Try>)
    requires es != [] && Ordered(last, es)
    ensures Ordered(es[0].now, es[1..])
  {
    assert forall i :: 0 <= i < |es[1..]| ==> es[1..][i] == es[i + 1];
  }

  function LastTime(b: Bucket, es: seq<Try>): real {
    if es == [] then b.last else es[|es| - 1].now
  }

  /** Tokens never appear from nowhere: what is handed out came from the level at the start or from refills. */
  lemma {:induction false} NoTokensFromNowhere(b: Bucket, es: seq<Try>)
    requires Sound(b) && Ordered(b.last, es)
    ensures Sound(AfterAll(b, es)) && AfterAll(b, es).last == LastTime(b, es)
    ensures AfterAll(b, es).rate == b.rate && AfterAll(b, es).capacity == b.capacity
    ensures AfterAll(b, es).tokens + Granted(b, es) as real <= b.tokens + Flow(b.rate, b.last, LastTime(b, es))
    decreases |es|
  {
    if es != [] {
      var b' := After(b, es[0]);
      AttemptKeepsSound(b, es[0]);
      OrderedTail(b.last, es);
      NoTokensFromNowhere(b', es[1..]);
      assert LastTime(b', es[1..]) == LastTime(b, es);
      FlowAdds(b.rate, b.last, es[0].now, LastTime(b, es));
    }
  }

  lemma {:induction false} OrderedSplit(last: real, es: seq<Try>, i: nat)
    requires Ordered(last, es) && i <= |es|
    ensures Ordered(last, es[..i]) && Ordered(if i == 0 then last else es[i - 1].now, es[i..])
  {
  }

  /**
   The rate limit over any window: the attempts from the i-th up to the j-th,
   made by whoever, together receive at most the capacity plus what flows in
   between the first and the last of them.
   */
  lemma {:induction false} RateIsBounded(b: Bucket, es: seq<Try>, i: nat, j: nat)
    requires Sound(b) && Ordered(b.last, es) && i < j <= |es|
    ensures Granted(AfterAll(b, es[..i]), es[i..j]) as real
         <= b.capacity + Flow(b.rate, es[i].now, es[j - 1].now)
  {
    var m := AfterAll(b, es[..i]);
    OrderedSplit(b.last, es, i);
    NoTokensFromNowhere(b, es[..i]);
    var window := es[i..j];
    assert window == es[i..][..j - i];
    OrderedSplit(m.last, es[i..], j - i);
    AttemptKeepsSound(m, window[0]);
    OrderedTail(m.last, window);
    NoTokensFromNowhere(After(m, window[0]), window[1..]);
    assert LastTime(After(m, window[0]), window[1..]) == es[j - 1].now;
  }

  // ----- waiting -----

  /** Refilling twice is refilling once at the later time. */
  lemma {:induction false} RefillTwice(b: Bucket, s: real, t: real)
    requires Sound(b) && b.last <= s <= t
    ensures Refill(Refill(b, s), t) == Refill(b, t)
  {
    FlowAdds(b.rate, b.last, s, t);
  }

  /** Attempts that all fail leave nothing behind but the passing of time. */
  lemma {:induction false} FailuresOnlyRefill(b: Bucket, es: seq<Try>, t: real)
    requires Sound(b) && Ordered(b.last, es) && Granted(b, es) == 0 && LastTime(b, es) <= t
    ensures Refill(AfterAll(b, es), t) == Refill(b, t)
    decreases |es|
  {
    if es != [] {
      AttemptKeepsSound(b, es[0]);
      OrderedTail(b.last, es);
      var b' := After(b, es[0]);
      assert b' == Refill(b, es[0].now);
      assert LastTime(b', es[1..]) == LastTime(b, es);
      FailuresOnlyRefill(b', es[1..], t);
      assert es[0].now <= t;
      RefillTwice(b, es[0].now, t);
    }
  }

  lemma {:induction false} FlowReaches(x: real, rate: real, s: real, t: real)
    requires rate > 0.0
    ensures t - s >= x / rate <==> Flow(rate, s, t) >= x
  {
    var d, w := t - s, x / rate;
    assert w * rate == x;
    if d >= w {
      assert (d - w) * rate >= 0.0;
    } else {
      assert (w - d) * rate > 0.0;
    }
  }

  /**
   The computed wait is exact. After a failed attempt at `b.last`, and whatever
   failing attempts others make meanwhile, a retry at time t succeeds if and only if
   the request fits the bucket at all and the computed wait has passed.
   */
  lemma {:induction false} RetrySucceedsExactlyWhen(b: Bucket, n: nat, es: seq<Try>, t: real)
    requires Sound(b) && b.tokens < n as real
    requires Ordered(b.last, es) && Granted(b, es) == 0 && LastTime(b, es) <= t
    ensures Succeeds(AfterAll(b, es), Try(n, t)) <==> n as real <= b.capacity && t - b.last >= Wait(b, n)
  {
    FailuresOnlyRefill(b, es, t);
    FlowReaches(n as real - b.tokens, b.rate, b.last, t);
  }

  /** A request larger than the bucket fails in every run, so without a timeout it waits for ever. */
  lemma {:induction false} OversizedRequestsNeverSucceed(b: Bucket, es: seq<Try>, k: nat)
    requires Sound(b) && Ordered(b.last, es) && k < |es| && es[k].n as real > b.capacity
    ensures !Succeeds(AfterAll(b, es[..k]), es[k])
  {
    OrderedSplit(b.last, es, k);
    NoTokensFromNowhere(b, es[..k]);
  }

  // ----- the retry loop -----

  datatype Verdict = Taken | GaveUp | StillWaiting

  /** One iteration: what other callers try before it, the reading under the lock, and the later one. */
  datatype Reading = Reading(others: seq<Try>, now: real, later: real)

  /** Everybody's attempts, in order. */
  function Attempts(n: nat, rs: seq<Reading>): seq<Try> {
    if rs == [] then []
    else
      var k := |rs| - 1;
      Attempts(n, rs[..k]) + rs[k].others + [Try(n, rs[k].now)]
  }

  /** The caller's own i-th attempt succeeds. */
  predicate OwnSucceeds(b: Bucket, n: nat, rs: seq<Reading>, i: nat)
    requires i < |rs|
  {
    Succeeds(AfterAll(b, Attempts(n, rs[..i]) + rs[i].others), Try(n, rs[i].now))
  }

  /** After the caller's i-th attempt, the computed wait ends after the deadline. */
  predicate PastDeadline(b: Bucket, n: nat, rs: seq<Reading>, i: nat, deadline: real, hasDeadline: bool)
    requires i < |rs|
  {
    hasDeadline && b.rate != 0.0
    && rs[i].later + (n as real - AfterAll(b, Attempts(n, rs[..i + 1])).tokens) / b.rate > deadline
  }

  lemma {:induction false} AfterAllConcat(b: Bucket, es: seq<Try>, fs: seq<Try>)
    ensures AfterAll(b, es + fs) == AfterAll(AfterAll(b, es), fs)
    decreases |es|
  {
    if es == [] {
      assert es + fs == fs;
    } else {
      assert (es + fs)[1..] == es[1..] + fs;
      AfterAllConcat(After(b, es[0]), es[1..], fs);
    }
  }

  lemma {:induction false} OneMoreAttempt(b: Bucket, n: nat, rs: seq<Reading>, i: nat)
    requires i < |rs|
    ensures AfterAll(b, Attempts(n, rs[..i]) + rs[i].others)
         == AfterAll(AfterAll(b, Attempts(n, rs[..i])), rs[i].others)
    ensures AfterAll(b, Attempts(n, rs[..i + 1]))
         == After(AfterAll(b, Attempts(n, rs[..i]) + rs[i].others), Try(n, rs[i].now))
  {
    var before, e := Attempts(n, rs[..i]) + rs[i].others, Try(n, rs[i].now);
    assert rs[..i + 1][..i] == rs[..i];
    AfterAllConcat(b, Attempts(n, rs[..i]), rs[i].others);
    AfterAllConcat(b, before, [e]);
    assert [e][1..] == [];
  }

  class TokenBucket {
    const rate: real
    const capacity: real
    var tokens: real
    var last: real

    function Value(): Bucket
      reads this
    {
      Bucket(rate, capacity, tokens, last)
    }

    constructor (rate: real, capacity: real, now: real)
      ensures Value() == Open(rate, capacity, now)
    {
      this.rate, this.capacity, this.tokens, this.last := rate, capacity, capacity, now;
    }

    method Attempt(n: nat, now: real) returns (ok: bool, wait: real)
      requires rate > 0.0
      modifies this
      ensures ok <==> Succeeds(old(Value()), Try(n, now))
      ensures Value() == After(old(Value()), Try(n, now))
      ensures !ok ==> wait == Wait(Value(), n)
    {
      tokens := Capped(capacity, tokens + Flow(rate, last, now));
      last := now;
      if tokens >= n as real {
        tokens := tokens - n as real;
        return true, 0.0;
      }
      var missing := n as real - tokens;
      return false, missing / rate;
    }

    /** Other callers' attempts. */
    method Others(es: seq<Try>)
      requires rate > 0.0
      modifies this
      ensures Value() == AfterAll(old(Value()), es)
    {
      ghost var b := Value();
      for i := 0 to |es|
        invariant AfterAll(Value(), es[i..]) == AfterAll(b, es)
      {
        assert es[i..][0] == es[i] && es[i..][1..] == es[i + 1..];
        var _, _ := Attempt(es[i].n, es[i].now);
      }
    }

    /**
     `acquire`, for as many iterations as there are clock readings, with any
     attempts of other callers in between. The caller's attempts all fail but the
     last, which succeeds exactly when the amount is taken; it gives up only
     when the computed wait ends after the deadline.
     */
    method Acquire(n: nat, readings: seq<Reading>, deadline: real, hasDeadline: bool) returns (r: Verdict, tries: nat)
      requires rate > 0.0
      modifies this
      ensures tries <= |readings| && Value() == AfterAll(old(Value()), Attempts(n, readings[..tries]))
      ensures forall i :: 0 <= i < tries ==>
                (OwnSucceeds(old(Value()), n, readings, i) <==> r.Taken? && i == tries - 1)
      ensures r.Taken? ==> tries > 0
      ensures r.GaveUp? ==> hasDeadline && tries > 0 && readings[tries - 1].later + Wait(Value(), n) > deadline
      ensures r.StillWaiting? ==> tries == |readings|
      ensures forall i :: 0 <= i < tries && (i < tries - 1 || r.StillWaiting?) ==>
                !PastDeadline(old(Value()), n, readings, i, deadline, hasDeadline)
    {
      ghost var b := Value();
      tries := 0;
      while tries < |readings|
        invariant tries <= |readings|
        invariant Value() == AfterAll(b, Attempts(n, readings[..tries]))
        invariant forall i :: 0 <= i < tries ==> !OwnSucceeds(b, n, readings, i)
        invariant forall i :: 0 <= i < tries ==> !PastDeadline(b, n, readings, i, deadline, hasDeadline)
      {
        OneMoreAttempt(b, n, readings, tries);
        Others(readings[tries].others);
        var ok, wait := Attempt(n, readings[tries].now);
        tries := tries + 1;
        if ok {
          return Taken, tries;
        }
        if hasDeadline && readings[tries - 1].later + wait > deadline {
          return GaveUp, tries;
        }
      }
      return StillWaiting, tries;
    }
  }
}
