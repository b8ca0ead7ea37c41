/** The retry interceptors and the strategies that stop them. */
module Retry {
  import opened Options

  datatype Props = Props(code: int, grpcMethod: string, attempt: nat)

  /** Which errors may be retried is an arbitrary predicate. */
  datatype Strategy = Never | FixedCount(maxAttempts: int, eligible: Props -> bool)

  /** Seconds to wait before the next attempt, or `None` to stop. */
  function DetermineWhenToRetry(s: Strategy, props: Props): Option<nat> {
    match s
    case Never => None
    case FixedCount(maxAttempts, eligible) =>
      if !eligible(props) then None
      else if props.attempt > maxAttempts then None
      else Some(0)
  }

  /** What attempt number t (from 1) gives: a response, or an error with its status code. */
  datatype Answer<T, E> = Response(value: T) | Error(error: E, code: int)

  /** The most attempts a strategy can lead to. */
  function Budget(s: Strategy): nat {
    if s.Never? || s.maxAttempts < 0 then 1 else s.maxAttempts + 1
  }

  /** Attempt t is the last one: it succeeds, its error may not be retried, or the attempts are used up. */
  predicate Stops<T, E>(s: Strategy, rpc: string, answers: nat -> Answer<T, E>, t: nat) {
    answers(t).Response? || t >= Budget(s) || (s.FixedCount? && !s.eligible(Props(answers(t).code, rpc, t)))
  }

  ghost predicate IsLastAttempt<T, E>(s: Strategy, rpc: string, answers: nat -> Answer<T, E>, t: nat) {
    1 <= t && Stops(s, rpc, answers, t) && forall u | 1 <= u < t :: !Stops(s, rpc, answers, u)
  }

  lemma LastAttemptIsUnique<T, E>(s: Strategy, rpc: string, answers: nat -> Answer<T, E>, t: nat, u: nat)
    requires IsLastAttempt(s, rpc, answers, t) && IsLastAttempt(s, rpc, answers, u)
    ensures t == u && t <= Budget(s)
  {
    assert Stops(s, rpc, answers, Budget(s));
  }

  /**
   How many attempts there are: one under Never; under FixedCount(n) at most n + 1, or one if n is negative, and fewer only
   if an earlier attempt succeeds or its error may not be retried. The attempts before all failed and could be retried.
   */
  lemma AttemptsExactly<T, E>(s: Strategy, rpc: string, answers: nat -> Answer<T, E>, t: nat)
    requires IsLastAttempt(s, rpc, answers, t)
    ensures s.Never? ==> t == 1
    ensures s.FixedCount? ==>
      && 1 <= t <= (if s.maxAttempts < 0 then 1 else s.maxAttempts + 1)
      && (t == (if s.maxAttempts < 0 then 1 else s.maxAttempts + 1)
          || answers(t).Response? || !s.eligible(Props(answers(t).code, rpc, t)))
      && forall u | 1 <= u < t :: answers(u).Error? && s.eligible(Props(answers(u).code, rpc, u))
  {
    LastAttemptIsUnique(s, rpc, answers, t, t);
    forall u: nat | 1 <= u < t
      ensures answers(u).Error? && (s.FixedCount? ==> s.eligible(Props(answers(u).code, rpc, u)))
    {
      assert !Stops(s, rpc, answers, u);
    }
  }

  /** The unary interceptor: the error of the last attempt, `None` if it succeeded. */
  method UnaryRetry<T, E>(s: Strategy, rpc: string, answers: nat -> Answer<T, E>)
    returns (lastError: Option<E>, attempt: nat)
    ensures IsLastAttempt(s, rpc, answers, attempt)
    ensures s.Never? ==> attempt == 1
    ensures s.FixedCount? ==>
      && 1 <= attempt <= (if s.maxAttempts < 0 then 1 else s.maxAttempts + 1)
      && (attempt == (if s.maxAttempts < 0 then 1 else s.maxAttempts + 1)
          || answers(attempt).Response? || !s.eligible(Props(answers(attempt).code, rpc, attempt)))
      && forall u | 1 <= u < attempt :: answers(u).Error? && s.eligible(Props(answers(u).code, rpc, u))
    ensures lastError == if answers(attempt).Response? then None else Some(answers(attempt).error)
  {
    attempt := 1;
    while true
      invariant 1 <= attempt <= Budget(s)
      invariant forall u | 1 <= u < attempt :: !Stops(s, rpc, answers, u)
      decreases Budget(s) - attempt
    {
      var answer := answers(attempt);
      if answer.Response? {
        AttemptsExactly(s, rpc, answers, attempt);
        return None, attempt;
      }
      var backoff := DetermineWhenToRetry(s, Props(answer.code, rpc, attempt));
      if backoff.None? {
        AttemptsExactly(s, rpc, answers, attempt);
        return Some(answer.error), attempt;
      }
      attempt := attempt + 1;
    }
  }

  /** The stream interceptor makes the same decisions and hands out the stream of a successful attempt. */
  method StreamRetry<T, E>(s: Strategy, rpc: string, answers: nat -> Answer<T, E>)
    returns (stream: Option<T>, lastError: Option<E>, attempt: nat)
    ensures IsLastAttempt(s, rpc, answers, attempt)
    ensures s.Never? ==> attempt == 1
    ensures s.FixedCount? ==>
      && 1 <= attempt <= (if s.maxAttempts < 0 then 1 else s.maxAttempts + 1)
      && (attempt == (if s.maxAttempts < 0 then 1 else s.maxAttempts + 1)
          || answers(attempt).Response? || !s.eligible(Props(answers(attempt).code, rpc, attempt)))
      && forall u | 1 <= u < attempt :: answers(u).Error? && s.eligible(Props(answers(u).code, rpc, u))
    ensures answers(attempt).Response? ==> stream == Some(answers(attempt).value) && lastError == None
    ensures answers(attempt).Error? ==> stream == None && lastError == Some(answers(attempt).error)
  {
    attempt := 1;
    while true
      invariant 1 <= attempt <= Budget(s)
      invariant forall u | 1 <= u < attempt :: !Stops(s, rpc, answers, u)
      decreases Budget(s) - attempt
    {
      var answer := answers(attempt);
      if answer.Response? {
        AttemptsExactly(s, rpc, answers, attempt);
        return Some(answer.value), None, attempt;
      }
      var backoff := DetermineWhenToRetry(s, Props(answer.code, rpc, attempt));
      if backoff.None? {
        AttemptsExactly(s, rpc, answers, attempt);
        return None, Some(answer.error), attempt;
      }
      attempt := attempt + 1;
    }
  }
}
