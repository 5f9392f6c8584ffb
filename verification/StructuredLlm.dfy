/** Structured model calls: a bounded number of attempts, one kind of retry with a budget of its
    own, and a growing, capped pause before each retry. */
module StructuredLlm {
  import opened Wrappers

  /** What one provider call comes to. A completion that breaks the response schema has no output. */
  datatype Reply<T> = TimedOut | ProviderError(retryable: bool) | Completed(output: Option<T>, tokens: nat)

  datatype Generated<T> = Generated(output: T, attempts: nat, tokens: nat) | GaveUp(last: Reply<T>)

  datatype Limits = Limits(maxAttempts: nat, invalidRetries: nat, initialBackoff: real, maxBackoff: real)

  function Power2(n: nat): nat {
    if n == 0 then 1 else 2 * Power2(n - 1)
  }

  function Min(a: real, b: real): real {
    if b < a then b else a
  }

  /** The pause after attempt `attempt`. */
  function Delay(limits: Limits, attempt: nat): real
    requires attempt >= 1
  {
    Min(limits.initialBackoff * (Power2(attempt - 1) as real), limits.maxBackoff)
  }

  /** The pauses after the first `n` attempts. */
  function Delays(limits: Limits, n: nat): seq<real> {
    if n == 0 then [] else Delays(limits, n - 1) + [Delay(limits, n)]
  }

  predicate IsInvalid<T>(reply: Reply<T>) {
    reply.Completed? && reply.output.None?
  }

  /** How many of the first `n` replies broke the schema. */
  function InvalidUpTo<T>(replies: nat -> Reply<T>, n: nat): nat {
    if n == 0 then 0 else InvalidUpTo(replies, n - 1) + if IsInvalid(replies(n - 1)) then 1 else 0
  }

  /** Is attempt `n` followed by another one? */
  predicate IsRetried<T>(limits: Limits, replies: nat -> Reply<T>, n: nat)
    requires n >= 1
  {
    && n < limits.maxAttempts
    && match replies(n - 1)
       case TimedOut => true
       case ProviderError(retryable) => retryable
       case Completed(output, _) => output.None? && InvalidUpTo(replies, n - 1) < limits.invalidRetries
  }

  ghost predicate AllRetried<T>(limits: Limits, replies: nat -> Reply<T>, n: nat) {
    n == 0 || (AllRetried(limits, replies, n - 1) && IsRetried(limits, replies, n))
  }

  /** The calls end with attempt `n`. */
  ghost predicate IsLastAttempt<T>(limits: Limits, replies: nat -> Reply<T>, n: nat) {
    1 <= n <= limits.maxAttempts && AllRetried(limits, replies, n - 1) && !IsRetried(limits, replies, n)
  }

  class StructuredLLMClient {
    const limits: Limits
    /** Every pause asked for, and the number of provider calls. */
    var pauses: seq<real>
    var calls: nat

    constructor (limits: Limits)
      requires limits.maxAttempts >= 1
      ensures this.limits == limits && pauses == [] && calls == 0
    {
      this.limits, pauses, calls := limits, [], 0;
    }

    method ScheduleRetry(attempt: nat)
      requires attempt >= 1
      modifies this`pauses
      ensures pauses == old(pauses) + [Delay(limits, attempt)]
    {
      pauses := pauses + [Delay(limits, attempt)];
    }

    method Retry(retryable: bool, attempt: nat) returns (again: bool)
      requires attempt >= 1
      modifies this`pauses
      ensures again <==> retryable && attempt < limits.maxAttempts
      ensures pauses == old(pauses) + if again then [Delay(limits, attempt)] else []
    {
      if !retryable || attempt >= limits.maxAttempts {
        return false;
      }
      ScheduleRetry(attempt);
      again := true;
    }

    method Generate<T>(replies: nat -> Reply<T>) returns (result: Generated<T>)
      requires limits.maxAttempts >= 1
      modifies this
      ensures calls > old(calls)
      ensures var n := calls - old(calls);
        && IsLastAttempt(limits, replies, n)
        && pauses == old(pauses) + Delays(limits, n - 1)
        && result == match replies(n - 1)
                     case Completed(Some(output), tokens) => Generated(output, n, tokens)
                     case reply => GaveUp(reply)
    {
      var invalidRetriesUsed := 0;
      var attempt := 1;
      while attempt <= limits.maxAttempts
        invariant 1 <= attempt <= limits.maxAttempts && calls == old(calls) + attempt - 1
        invariant AllRetried(limits, replies, attempt - 1)
        invariant pauses == old(pauses) + Delays(limits, attempt - 1)
        invariant invalidRetriesUsed == InvalidUpTo(replies, attempt - 1)
        decreases limits.maxAttempts - attempt
      {
        var reply := replies(attempt - 1);
        calls := calls + 1;
        match reply {
        case TimedOut =>
          var again := Retry(true, attempt);
          if !again {
            return GaveUp(reply);
          }
        case ProviderError(retryable) =>
          var again := Retry(retryable, attempt);
          if !again {
            return GaveUp(reply);
          }
        case Completed(output, tokens) =>
          if output.Some? {
            return Generated(output.value, attempt, tokens);
          }
          if !(invalidRetriesUsed < limits.invalidRetries && attempt < limits.maxAttempts) {
            return GaveUp(reply);
          }
          invalidRetriesUsed := invalidRetriesUsed + 1;
          ScheduleRetry(attempt);
        }
        attempt := attempt + 1;
      }
      assert false;
    }
  }

  // ----- What that means -----

  lemma {:induction false} RetriedAt<T>(limits: Limits, replies: nat -> Reply<T>, n: nat, i: nat)
    requires AllRetried(limits, replies, n) && 1 <= i <= n
    ensures AllRetried(limits, replies, i) && IsRetried(limits, replies, i)
  {
    if i < n {
      RetriedAt(limits, replies, n - 1, i);
    }
  }

  /** The script of replies determines the number of calls. */
  lemma LastAttemptIsUnique<T>(limits: Limits, replies: nat -> Reply<T>, n: nat, m: nat)
    requires IsLastAttempt(limits, replies, n) && IsLastAttempt(limits, replies, m)
    ensures n == m
  {
    if n < m {
      RetriedAt(limits, replies, m - 1, n);
    } else if m < n {
      RetriedAt(limits, replies, n - 1, m);
    }
  }

  /** However the attempts end, no more schema failures are retried than allowed. */
  lemma {:induction false} InvalidRetriesAreBounded<T>(limits: Limits, replies: nat -> Reply<T>, n: nat)
    requires AllRetried(limits, replies, n)
    ensures InvalidUpTo(replies, n) <= limits.invalidRetries
  {
    if n > 0 {
      InvalidRetriesAreBounded(limits, replies, n - 1);
    }
  }

  /** A usable output is never thrown away: the attempt that brings one is the last. */
  lemma OutputIsReturned<T>(limits: Limits, replies: nat -> Reply<T>, n: nat, i: nat)
    requires IsLastAttempt(limits, replies, n) && i < n
    ensures replies(i).Completed? && replies(i).output.Some? ==> i == n - 1
  {
    if i < n - 1 {
      RetriedAt(limits, replies, n - 1, i + 1);
    }
  }

  predicate CanBeRetried<T>(reply: Reply<T>) {
    reply.TimedOut? || (reply.ProviderError? && reply.retryable) || (reply.Completed? && reply.output.None?)
  }

  /** An attempt is the last because it brought an output, or an error that cannot be retried, or one schema
      failure too many, or because there may be no more; every attempt before it brought a failure that can be
      retried. */
  lemma LastAttemptMeaning<T>(limits: Limits, replies: nat -> Reply<T>, n: nat)
    requires IsLastAttempt(limits, replies, n)
    ensures n <= limits.maxAttempts
    ensures n == limits.maxAttempts || match replies(n - 1)
      case TimedOut => false
      case ProviderError(retryable) => !retryable
      case Completed(output, _) => output.Some? || InvalidUpTo(replies, n - 1) >= limits.invalidRetries
    ensures forall i: nat :: i < n - 1 ==> CanBeRetried(replies(i))
  {
    forall i: nat | i < n - 1
      ensures CanBeRetried(replies(i))
    {
      RetriedAt(limits, replies, n - 1, i + 1);
    }
  }

  lemma {:induction false} DelaysAt(limits: Limits, n: nat, i: nat)
    requires i < n
    ensures |Delays(limits, n)| == n && Delays(limits, n)[i] == Delay(limits, i + 1)
  {
    if n > 1 {
      DelaysAt(limits, n - 1, if i < n - 1 then i else 0);
    }
  }

  /** The pauses begin with the initial one, double until they reach the cap, and stay there. */
  lemma PausesGrow(limits: Limits, n: nat, i: nat)
    requires i < n && limits.initialBackoff >= 0.0
    ensures |Delays(limits, n)| == n && Delays(limits, n)[i] <= limits.maxBackoff
    ensures i + 1 < n ==> Delays(limits, n)[i] <= Delays(limits, n)[i + 1]
    ensures i == 0 ==> Delays(limits, n)[i] == Min(limits.initialBackoff, limits.maxBackoff)
    ensures i + 1 < n && limits.maxBackoff >= 0.0 ==>
      Delays(limits, n)[i + 1]
      == if 2.0 * Delays(limits, n)[i] <= limits.maxBackoff then 2.0 * Delays(limits, n)[i] else limits.maxBackoff
  {
    DelaysAt(limits, n, i);
    if i + 1 < n {
      DelaysAt(limits, n, i + 1);
      var factor := Power2(i) as real;
      assert Power2(i + 1) as real == 2.0 * factor;
      Doubling(limits.initialBackoff, factor);
      assert limits.initialBackoff * (2.0 * factor) == 2.0 * (limits.initialBackoff * factor);
    }
  }

  lemma Doubling(x: real, factor: real)
    requires x >= 0.0 && factor >= 0.0
    ensures x * factor <= x * (2.0 * factor)
  {
    assert x * (2.0 * factor) == x * factor + x * factor;
    assert x * factor >= 0.0;
  }
}
