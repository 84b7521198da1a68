/** Failure classes and the retry decision (include/perfacet/ir/classify.h, src/health/RetryPolicy.cpp). */
module Retry {

  datatype Klass =
    | Ok | Cancelled | Timeout | Unavailable | Throttled
    | Protocol | Capability | Upstream | Authz | Internal

  datatype Policy = Policy(maxAttempts: int, retryable: seq<Klass>, never: seq<Klass>)

  /** When one more attempt is permitted. `outstanding` is the caller's claim that the failed attempt
      may still be running. */
  predicate MayRetry(p: Policy, klass: Klass, tool: string, idempotent: seq<string>, attempt: int,
                     deadline: nat, circuitOpen: bool, outstanding: bool, now: nat)
  {
    && attempt < p.maxAttempts
    && !circuitOpen
    && (deadline == 0 || now < deadline)
    && klass !in p.never
    && klass in p.retryable
    && (klass == Timeout ==> !outstanding && tool in idempotent)
  }

  method ShouldRetry(p: Policy, klass: Klass, tool: string, idempotent: seq<string>, attempt: int,
                     deadline: nat, circuitOpen: bool, outstanding: bool, now: nat)
    returns (again: bool)
    ensures again == MayRetry(p, klass, tool, idempotent, attempt, deadline, circuitOpen, outstanding, now)
  {
    if attempt >= p.maxAttempts { return false; }
    if circuitOpen { return false; }
    if deadline > 0 && now >= deadline { return false; }
    var i := 0;
    while i < |p.never|
      invariant 0 <= i <= |p.never|
      invariant klass !in p.never[..i]
    {
      if p.never[i] == klass { return false; }
      i := i + 1;
    }
    assert p.never[..i] == p.never;
    var listed := false;
    i := 0;
    while i < |p.retryable|
      invariant 0 <= i <= |p.retryable|
      invariant !listed ==> klass !in p.retryable[..i]
      invariant listed ==> klass in p.retryable
    {
      if p.retryable[i] == klass {
        listed := true;
        break;
      }
      i := i + 1;
    }
    if !listed {
      assert p.retryable[..i] == p.retryable;
      return false;
    }
    if klass == Timeout {
      if outstanding { return false; }
      i := 0;
      while i < |idempotent| && idempotent[i] != tool
        invariant 0 <= i <= |idempotent|
        invariant tool !in idempotent[..i]
      {
        i := i + 1;
      }
      if i == |idempotent| {
        assert idempotent[..i] == idempotent;
        return false;
      }
    }
    return true;
  }

  /** What the two lists and the timeout rule refuse, and that nothing else is refused on their account. */
  lemma ListsDecide(p: Policy, klass: Klass, tool: string, idempotent: seq<string>, attempt: int, deadline: nat,
                    now: nat, outstanding: bool)
    requires attempt < p.maxAttempts && (deadline == 0 || now < deadline)
    ensures var again := MayRetry(p, klass, tool, idempotent, attempt, deadline, false, outstanding, now);
            !again <==>
              || (exists i :: 0 <= i < |p.never| && p.never[i] == klass)
              || (forall i :: 0 <= i < |p.retryable| ==> p.retryable[i] != klass)
              || (klass == Timeout && (outstanding || forall i :: 0 <= i < |idempotent| ==> idempotent[i] != tool))
  {
  }
}
