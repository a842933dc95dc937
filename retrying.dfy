/**
 * The meaning of `MaterialsProcessor.retry`: call an operation up to
 * `max_retries` times, return its first truthy result, sleep
 * `backoff_factor ** attempt` after an attempt that raised (unless it was the
 * last), and log the exception of a last attempt that raised.
 *
 * The operation is a function from the attempt number to what that call did: what
 * it returned or raised, and the events it caused.
 */
module Retrying {
  import opened Basics
  import opened Crystal
  import opened Effects

  datatype Attempt = Returned(value: Option<Structure>) | Raised(message: string)

  datatype Invocation = Invocation(attempt: Attempt, effects: seq<Event>)

  /** Python truthiness of what a structure-producing operation returns. */
  predicate Truthy(v: Option<Structure>) {
    v.Some? && HasSites(v.value)
  }

  predicate Succeeds(inv: Invocation) {
    inv.attempt.Returned? && Truthy(inv.attempt.value)
  }

  /** What a retry run returns, the events it caused, the messages it logged and how many calls it made. */
  datatype RetryRun = RetryRun(result: Option<Structure>, effects: seq<Event>, logged: seq<string>, attempts: nat)

  function Pow(b: int, k: nat): int {
    if k == 0 then 1 else b * Pow(b, k - 1)
  }

  /** The retry loop from attempt `k` on. */
  function RetryFrom(call: nat -> Invocation, maxRetries: int, backoff: int, k: nat): RetryRun
    decreases maxRetries - k
  {
    if k >= maxRetries then RetryRun(None, [], [], 0)
    else
      var inv := call(k);
      match inv.attempt
      case Returned(v) =>
        if Truthy(v) then RetryRun(v, inv.effects, [], 1)
        else
          var rest := RetryFrom(call, maxRetries, backoff, k + 1);
          rest.(effects := inv.effects + rest.effects, attempts := rest.attempts + 1)
      case Raised(m) =>
        if k == maxRetries - 1 then RetryRun(None, inv.effects, [m], 1)
        else
          var rest := RetryFrom(call, maxRetries, backoff, k + 1);
          rest.(effects := inv.effects + [Sleep(Pow(backoff, k))] + rest.effects, attempts := rest.attempts + 1)
  }

  /** Some call among attempts lo .. hi-1 succeeds. */
  ghost predicate SomeSuccess(call: nat -> Invocation, lo: nat, hi: int) {
    exists j :: lo <= j < hi && Succeeds(call(j))
  }

  /** The run from `k` continues to attempt `k + 1`, with the same result. */
  lemma RetryContinues(call: nat -> Invocation, maxRetries: int, backoff: int, k: nat)
    requires k < maxRetries && !Succeeds(call(k)) && !(call(k).attempt.Raised? && k == maxRetries - 1)
    ensures var r := RetryFrom(call, maxRetries, backoff, k);
            var rest := RetryFrom(call, maxRetries, backoff, k + 1);
            r.result == rest.result && r.logged == rest.logged && r.attempts == rest.attempts + 1
  {
    if call(k).attempt.Raised? {
      RetryAfterRaise(call, maxRetries, backoff, k);
    } else {
      RetryAfterFalsy(call, maxRetries, backoff, k);
    }
  }

  /** A run returns a structure exactly when some attempt succeeds. */
  lemma {:induction false} RetrySucceedsIff(call: nat -> Invocation, maxRetries: int, backoff: int, k: nat)
    ensures RetryFrom(call, maxRetries, backoff, k).result.Some? <==> SomeSuccess(call, k, maxRetries)
    decreases maxRetries - k
  {
    if k < maxRetries {
      if Succeeds(call(k)) {
        assert k <= k < maxRetries && Succeeds(call(k));
      } else if !(call(k).attempt.Raised? && k == maxRetries - 1) {
        RetrySucceedsIff(call, maxRetries, backoff, k + 1);
        RetryContinues(call, maxRetries, backoff, k);
        if SomeSuccess(call, k, maxRetries) {
          var j :| k <= j < maxRetries && Succeeds(call(j));
          assert k + 1 <= j;
        }
      }
    }
  }

  /** A structure a run returns has sites: only a truthy result ends the loop with a value. */
  lemma {:induction false} RetryReturnsTruthy(call: nat -> Invocation, maxRetries: int, backoff: int, k: nat)
    ensures var r := RetryFrom(call, maxRetries, backoff, k);
            r.result.Some? ==> HasSites(r.result.value)
    decreases maxRetries - k
  {
    if k < maxRetries && !Succeeds(call(k)) && !(call(k).attempt.Raised? && k == maxRetries - 1) {
      RetryReturnsTruthy(call, maxRetries, backoff, k + 1);
      RetryContinues(call, maxRetries, backoff, k);
    }
  }

  /**
   * A structure returned is the value of the first successful call, unchanged,
   * after exactly that many calls.
   */
  lemma {:induction false} RetryReturnsFirst(call: nat -> Invocation, maxRetries: int, backoff: int, k: nat)
    ensures var r := RetryFrom(call, maxRetries, backoff, k);
            r.result.Some? ==>
              exists j :: k <= j < maxRetries && Succeeds(call(j))
                          && (forall i :: k <= i < j ==> !Succeeds(call(i)))
                          && r.result == call(j).attempt.value && r.attempts == j - k + 1
    decreases maxRetries - k
  {
    if k < maxRetries {
      if Succeeds(call(k)) {
        assert k <= k < maxRetries && Succeeds(call(k));
      } else if !(call(k).attempt.Raised? && k == maxRetries - 1) {
        RetryReturnsFirst(call, maxRetries, backoff, k + 1);
        RetryContinues(call, maxRetries, backoff, k);
        var r := RetryFrom(call, maxRetries, backoff, k);
        if r.result.Some? {
          var j :| k + 1 <= j < maxRetries && Succeeds(call(j))
                   && (forall i :: k + 1 <= i < j ==> !Succeeds(call(i)))
                   && r.result == call(j).attempt.value && r.attempts == j - k + 1;
          assert forall i :: k <= i < j ==> !Succeeds(call(i));
        }
      }
    }
  }

  /** A run that returns nothing has made every attempt. */
  lemma {:induction false} RetryNoneMakesEveryAttempt(call: nat -> Invocation, maxRetries: int, backoff: int, k: nat)
    ensures var r := RetryFrom(call, maxRetries, backoff, k);
            r.result.None? ==> r.attempts == Max(0, maxRetries - k)
    decreases maxRetries - k
  {
    if k < maxRetries && !Succeeds(call(k)) && !(call(k).attempt.Raised? && k == maxRetries - 1) {
      RetryNoneMakesEveryAttempt(call, maxRetries, backoff, k + 1);
      RetryContinues(call, maxRetries, backoff, k);
    }
  }

  /**
   * The result is the value of the first successful call among attempts
   * k .. maxRetries-1, unchanged, after exactly that many calls; with no success
   * the result is `None` after every attempt was made.
   */
  lemma RetryReturnsFirstSuccess(call: nat -> Invocation, maxRetries: int, backoff: int, k: nat)
    ensures var r := RetryFrom(call, maxRetries, backoff, k);
            && (r.result.Some? <==> exists j :: k <= j < maxRetries && Succeeds(call(j)))
            && (r.result.Some? ==>
                  exists j :: k <= j < maxRetries && Succeeds(call(j))
                              && (forall i :: k <= i < j ==> !Succeeds(call(i)))
                              && r.result == call(j).attempt.value && r.attempts == j - k + 1)
            && (r.result.None? ==> r.attempts == Max(0, maxRetries - k))
  {
    RetrySucceedsIff(call, maxRetries, backoff, k);
    RetryReturnsFirst(call, maxRetries, backoff, k);
    RetryNoneMakesEveryAttempt(call, maxRetries, backoff, k);
  }

  /**
   * A retry run logs at most one message, and logs one exactly when no attempt
   * succeeded and the last attempt raised; the message is that exception's.
   */
  lemma {:induction false} RetryLogsFinalRaise(call: nat -> Invocation, maxRetries: int, backoff: int, k: nat)
    ensures var r := RetryFrom(call, maxRetries, backoff, k);
            && |r.logged| <= 1
            && (r.logged != [] <==>
                  k < maxRetries && (forall j :: k <= j < maxRetries ==> !Succeeds(call(j)))
                  && call(maxRetries - 1).attempt.Raised?)
            && (r.logged != [] ==> k < maxRetries && r.logged == [call(maxRetries - 1).attempt.message])
    decreases maxRetries - k
  {
    if k < maxRetries && !Succeeds(call(k)) && !(call(k).attempt.Raised? && k == maxRetries - 1) {
      RetryLogsFinalRaise(call, maxRetries, backoff, k + 1);
    }
  }

  /** A run in which no call raises (falsy results included) logs nothing and neither sleeps nor writes. */
  lemma {:induction false} RetryQuietWithoutRaises(call: nat -> Invocation, maxRetries: int, backoff: int, k: nat)
    requires forall j :: k <= j < maxRetries ==> call(j).attempt.Returned? && Silent(call(j).effects)
    ensures var r := RetryFrom(call, maxRetries, backoff, k);
            r.logged == [] && Silent(r.effects)
    decreases maxRetries - k
  {
    if k < maxRetries && !Succeeds(call(k)) {
      RetryQuietWithoutRaises(call, maxRetries, backoff, k + 1);
      OutlineAppend(call(k).effects, RetryFrom(call, maxRetries, backoff, k + 1).effects);
    }
  }

  /** The powers b^k, b^(k+1), ..., b^(k+n-1). */
  function Powers(b: int, k: nat, n: nat): (r: seq<int>)
    ensures |r| == n && forall i :: 0 <= i < n ==> r[i] == Pow(b, k + i)
    decreases n
  {
    if n == 0 then [] else [Pow(b, k)] + Powers(b, k + 1, n - 1)
  }

  /** The run from `k` after a raising attempt `k` that is not the last. */
  lemma RetryAfterRaise(call: nat -> Invocation, maxRetries: int, backoff: int, k: nat)
    requires k < maxRetries - 1 && call(k).attempt.Raised?
    ensures var rest := RetryFrom(call, maxRetries, backoff, k + 1);
            RetryFrom(call, maxRetries, backoff, k)
            == rest.(effects := call(k).effects + [Sleep(Pow(backoff, k))] + rest.effects, attempts := rest.attempts + 1)
  {
  }

  /** The sleeps of a run whose every attempt raises: backoff^k, ..., backoff^(maxRetries-2). */
  lemma {:induction false} RaisingSleeps(call: nat -> Invocation, maxRetries: int, backoff: int, k: nat)
    requires k < maxRetries
    requires forall j :: k <= j < maxRetries ==> call(j).attempt.Raised? && Silent(call(j).effects)
    ensures Sleeps(RetryFrom(call, maxRetries, backoff, k).effects) == Powers(backoff, k, maxRetries - 1 - k)
    decreases maxRetries - k
  {
    SilentHasNoViews(call(k).effects);
    if k < maxRetries - 1 {
      RaisingSleeps(call, maxRetries, backoff, k + 1);
      RetryAfterRaise(call, maxRetries, backoff, k);
      SleepBetween(call(k).effects, Pow(backoff, k), RetryFrom(call, maxRetries, backoff, k + 1).effects);
    }
  }

  /**
   * An operation that always raises is called exactly `maxRetries` times, the
   * run sleeps backoff^k, backoff^(k+1), ..., backoff^(maxRetries-2) between the
   * calls, returns `None` and logs the last exception.
   */
  lemma {:induction false} RetryAlwaysRaising(call: nat -> Invocation, maxRetries: int, backoff: int, k: nat)
    requires k < maxRetries
    requires forall j :: k <= j < maxRetries ==> call(j).attempt.Raised? && Silent(call(j).effects)
    ensures var r := RetryFrom(call, maxRetries, backoff, k);
            && r.result == None && r.attempts == maxRetries - k
            && r.logged == [call(maxRetries - 1).attempt.message]
            && Sleeps(r.effects) == Powers(backoff, k, maxRetries - 1 - k)
    decreases maxRetries - k
  {
    RaisingSleeps(call, maxRetries, backoff, k);
    if k < maxRetries - 1 {
      RetryAlwaysRaising(call, maxRetries, backoff, k + 1);
      RetryAfterRaise(call, maxRetries, backoff, k);
    }
  }

  /** The run from `k` after a falsy attempt `k`. */
  lemma RetryAfterFalsy(call: nat -> Invocation, maxRetries: int, backoff: int, k: nat)
    requires k < maxRetries && call(k).attempt.Returned? && !Truthy(call(k).attempt.value)
    ensures var rest := RetryFrom(call, maxRetries, backoff, k + 1);
            RetryFrom(call, maxRetries, backoff, k)
            == rest.(effects := call(k).effects + rest.effects, attempts := rest.attempts + 1)
  {
  }

  /** A run that stops at attempt `k` has made one call and has not slept. */
  lemma RetryStopSleeps(call: nat -> Invocation, maxRetries: int, backoff: int, k: nat)
    requires k < maxRetries && Silent(call(k).effects)
    requires Succeeds(call(k)) || (call(k).attempt.Raised? && k == maxRetries - 1)
    ensures var r := RetryFrom(call, maxRetries, backoff, k);
            Sleeps(r.effects) == [] && r.attempts == 1
  {
    SilentHasNoViews(call(k).effects);
  }

  /** After a raising attempt that is not the last, the run sleeps backoff^k before going on. */
  lemma RetryRaiseSleeps(call: nat -> Invocation, maxRetries: int, backoff: int, k: nat)
    requires k < maxRetries - 1 && Silent(call(k).effects) && call(k).attempt.Raised?
    ensures var r := RetryFrom(call, maxRetries, backoff, k);
            var rest := RetryFrom(call, maxRetries, backoff, k + 1);
            Sleeps(r.effects) == [Pow(backoff, k)] + Sleeps(rest.effects) && r.attempts == rest.attempts + 1
  {
    SilentHasNoViews(call(k).effects);
    RetryAfterRaise(call, maxRetries, backoff, k);
    SleepBetween(call(k).effects, Pow(backoff, k), RetryFrom(call, maxRetries, backoff, k + 1).effects);
  }

  /** After a falsy attempt the run goes on without sleeping. */
  lemma RetryFalsySleeps(call: nat -> Invocation, maxRetries: int, backoff: int, k: nat)
    requires k < maxRetries && Silent(call(k).effects) && call(k).attempt.Returned? && !Succeeds(call(k))
    ensures var r := RetryFrom(call, maxRetries, backoff, k);
            var rest := RetryFrom(call, maxRetries, backoff, k + 1);
            Sleeps(r.effects) == Sleeps(rest.effects) && r.attempts == rest.attempts + 1
  {
    SilentHasNoViews(call(k).effects);
    RetryAfterFalsy(call, maxRetries, backoff, k);
    SleepsAppend(call(k).effects, RetryFrom(call, maxRetries, backoff, k + 1).effects);
  }

  /** A run from an attempt below `maxRetries` makes at least one call. */
  lemma RetryMakesAnAttempt(call: nat -> Invocation, maxRetries: int, backoff: int, k: nat)
    ensures RetryFrom(call, maxRetries, backoff, k).attempts > 0 <==> k < maxRetries
  {
  }

  /** Every sleep of the run from `k` follows an attempt j that raised and was not the last, and lasts backoff^j. */
  ghost predicate SleepsAreBackoffs(call: nat -> Invocation, maxRetries: int, backoff: int, k: nat) {
    forall t :: t in Sleeps(RetryFrom(call, maxRetries, backoff, k).effects) ==>
      exists j :: k <= j < maxRetries - 1 && call(j).attempt.Raised? && t == Pow(backoff, j)
  }

  lemma BackoffsAfterRaise(call: nat -> Invocation, maxRetries: int, backoff: int, k: nat)
    requires k < maxRetries - 1 && Silent(call(k).effects) && call(k).attempt.Raised?
    requires SleepsAreBackoffs(call, maxRetries, backoff, k + 1)
    ensures SleepsAreBackoffs(call, maxRetries, backoff, k)
  {
    var r := RetryFrom(call, maxRetries, backoff, k);
    var rest := RetryFrom(call, maxRetries, backoff, k + 1);
    RetryRaiseSleeps(call, maxRetries, backoff, k);
    forall t | t in Sleeps(r.effects)
      ensures exists j :: k <= j < maxRetries - 1 && call(j).attempt.Raised? && t == Pow(backoff, j)
    {
      if t in Sleeps(rest.effects) {
        var j :| k + 1 <= j < maxRetries - 1 && call(j).attempt.Raised? && t == Pow(backoff, j);
        assert k <= j;
      } else {
        assert t == Pow(backoff, k);
      }
    }
  }

  lemma BackoffsAfterFalsy(call: nat -> Invocation, maxRetries: int, backoff: int, k: nat)
    requires k < maxRetries && Silent(call(k).effects) && call(k).attempt.Returned? && !Succeeds(call(k))
    requires SleepsAreBackoffs(call, maxRetries, backoff, k + 1)
    ensures SleepsAreBackoffs(call, maxRetries, backoff, k)
  {
    var r := RetryFrom(call, maxRetries, backoff, k);
    var rest := RetryFrom(call, maxRetries, backoff, k + 1);
    RetryFalsySleeps(call, maxRetries, backoff, k);
    forall t | t in Sleeps(r.effects)
      ensures exists j :: k <= j < maxRetries - 1 && call(j).attempt.Raised? && t == Pow(backoff, j)
    {
      var j :| k + 1 <= j < maxRetries - 1 && call(j).attempt.Raised? && t == Pow(backoff, j);
      assert k <= j;
    }
  }

  lemma {:induction false} RetrySleepsAreBackoffs(call: nat -> Invocation, maxRetries: int, backoff: int, k: nat)
    requires forall j :: k <= j < maxRetries ==> Silent(call(j).effects)
    ensures SleepsAreBackoffs(call, maxRetries, backoff, k)
    decreases maxRetries - k
  {
    if k < maxRetries {
      if Succeeds(call(k)) || (call(k).attempt.Raised? && k == maxRetries - 1) {
        RetryStopSleeps(call, maxRetries, backoff, k);
      } else {
        RetrySleepsAreBackoffs(call, maxRetries, backoff, k + 1);
        if call(k).attempt.Raised? {
          BackoffsAfterRaise(call, maxRetries, backoff, k);
        } else {
          BackoffsAfterFalsy(call, maxRetries, backoff, k);
        }
      }
    }
  }

  /** A run with calls sleeps fewer times than it calls. */
  lemma {:induction false} RetrySleepsFewerThanAttempts(call: nat -> Invocation, maxRetries: int, backoff: int, k: nat)
    requires forall j :: k <= j < maxRetries ==> Silent(call(j).effects)
    ensures var r := RetryFrom(call, maxRetries, backoff, k);
            |Sleeps(r.effects)| <= r.attempts && (r.attempts > 0 ==> |Sleeps(r.effects)| < r.attempts)
    decreases maxRetries - k
  {
    if k < maxRetries {
      if Succeeds(call(k)) || (call(k).attempt.Raised? && k == maxRetries - 1) {
        RetryStopSleeps(call, maxRetries, backoff, k);
      } else {
        RetrySleepsFewerThanAttempts(call, maxRetries, backoff, k + 1);
        RetryMakesAnAttempt(call, maxRetries, backoff, k + 1);
        if call(k).attempt.Raised? {
          RetryRaiseSleeps(call, maxRetries, backoff, k);
        } else {
          RetryFalsySleeps(call, maxRetries, backoff, k);
        }
      }
    }
  }

  /**
   * Every sleep follows an attempt j that raised and was not the last, and lasts
   * backoff^j; a run with calls sleeps fewer times than it calls.
   */
  lemma RetrySleepsFollowRaises(call: nat -> Invocation, maxRetries: int, backoff: int, k: nat)
    requires forall j :: k <= j < maxRetries ==> Silent(call(j).effects)
    ensures var r := RetryFrom(call, maxRetries, backoff, k);
            && (forall t :: t in Sleeps(r.effects) ==>
                  exists j :: k <= j < maxRetries - 1 && call(j).attempt.Raised? && t == Pow(backoff, j))
            && |Sleeps(r.effects)| <= r.attempts
            && (r.attempts > 0 ==> |Sleeps(r.effects)| < r.attempts)
  {
    RetrySleepsAreBackoffs(call, maxRetries, backoff, k);
    RetrySleepsFewerThanAttempts(call, maxRetries, backoff, k);
  }
}
