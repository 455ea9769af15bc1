/**
 * The two retry loops of twitchpl.go. Each walks the backoff schedule, makes
 * one Client.Do call per entry and stops at the first call that does not
 * fail at the transport level, sleeping for the entry's duration after
 * every failed call. The network is the function `answer`: the outcome of
 * the call made at each attempt number. Sleeps are recorded, not taken.
 */
module Retry {
  import opened Wrappers
  import opened Http

  /** backoffSchedule of twitchpl.go: 1s, 2s and 3s, in milliseconds. */
  const BackoffSchedule: seq<nat> := [1000, 2000, 3000]

  /** What a retry loop hands back, plus what it did: how many calls it made and the sleeps it took. */
  datatype Attempts = Attempts(res: Option<Response>, err: Option<Error>, calls: nat, sleeps: seq<nat>)

  /** The error variable after `res, err = Client.Do(req)`. */
  function ErrorOf(e: Exchange): (r: Option<Error>)
    ensures r.None? <==> e.Completed?
  {
    match e
    case Completed(_) => None
    case TransportFailure(err, _) => Some(err)
  }

  /** The number of the first of the calls `from`..`n - 1` that completes, or `n` when none does. */
  function FirstCompletedFrom(answer: nat -> Exchange, from: nat, n: nat): (k: nat)
    requires from <= n
    ensures from <= k <= n
    ensures forall i :: from <= i < k ==> answer(i).TransportFailure?
    ensures k < n ==> answer(k).Completed?
    decreases n - from
  {
    if from == n then n
    else if answer(from).Completed? then from
    else FirstCompletedFrom(answer, from + 1, n)
  }

  function FirstCompleted(answer: nat -> Exchange, n: nat): (k: nat)
    ensures k <= n
    ensures forall i :: 0 <= i < k ==> answer(i).TransportFailure?
    ensures k < n ==> answer(k).Completed?
  {
    FirstCompletedFrom(answer, 0, n)
  }

  /**
   * Reference outcome of doRequestWithRetries: the first completed call's
   * response with a nil error, or, when every call fails, the last call's
   * response and error. Sleeps follow each failed call.
   */
  function GetRetry(schedule: seq<nat>, answer: nat -> Exchange): Attempts
  {
    var k := FirstCompleted(answer, |schedule|);
    if k < |schedule| then Attempts(Some(answer(k).response), None, k + 1, schedule[..k])
    else if |schedule| == 0 then Attempts(None, None, 0, [])
    else
      var last := answer(|schedule| - 1);
      Attempts(last.ResponseOf(), ErrorOf(last), |schedule|, schedule)
  }

  /**
   * Reference outcome of doPostRequestWithRetries. A request that cannot be
   * built ends the first round with no response and that error. Otherwise
   * it is GetRetry, except that Client.Do's error lands in the `err`
   * declared inside the loop, so the one returned after the loop is nil.
   */
  function PostRetry(schedule: seq<nat>, requestErr: Option<Error>, answer: nat -> Exchange): Attempts
  {
    if |schedule| > 0 && requestErr.Some? then Attempts(None, requestErr, 0, [])
    else
      GetRetry(schedule, answer).(err := None)
  }

  /** doRequestWithRetries: the loop over the schedule, breaking at the first call without an error. */
  method DoRequestWithRetries(schedule: seq<nat>, answer: nat -> Exchange) returns (r: Attempts)
    ensures r == GetRetry(schedule, answer)
  {
    r := Attempts(None, None, 0, []);
    var i := 0;
    while i < |schedule|
      invariant 0 <= i <= |schedule|
      invariant r.calls == i && r.sleeps == schedule[..i]
      invariant forall j :: 0 <= j < i ==> answer(j).TransportFailure?
      invariant i == 0 ==> r.res.None? && r.err.None?
      invariant i > 0 ==> r.res == answer(i - 1).ResponseOf() && r.err == ErrorOf(answer(i - 1))
    {
      var e := answer(i);
      r := r.(res := e.ResponseOf(), err := ErrorOf(e), calls := i + 1);
      if r.err.None? {
        break;
      }
      r := r.(sleeps := r.sleeps + [schedule[i]]);
      assert schedule[..i + 1] == schedule[..i] + [schedule[i]];
      i := i + 1;
    }
  }

  /**
   * doPostRequestWithRetries. `err` here is the one declared before the
   * loop; the loop body declares its own, which receives both the request
   * error and Client.Do's error.
   */
  method DoPostRequestWithRetries(schedule: seq<nat>, requestErr: Option<Error>, answer: nat -> Exchange)
    returns (r: Attempts)
    ensures r == PostRetry(schedule, requestErr, answer)
  {
    r := Attempts(None, None, 0, []);
    var i := 0;
    while i < |schedule|
      invariant 0 <= i <= |schedule|
      invariant i > 0 ==> requestErr.None?
      invariant r.calls == i && r.sleeps == schedule[..i] && r.err.None?
      invariant forall j :: 0 <= j < i ==> answer(j).TransportFailure?
      invariant i == 0 ==> r.res.None?
      invariant i > 0 ==> r.res == answer(i - 1).ResponseOf()
    {
      var err := requestErr;
      if err.Some? {
        return r.(err := err);
      }
      var e := answer(i);
      r := r.(res := e.ResponseOf(), calls := i + 1);
      err := ErrorOf(e);
      if err.None? {
        return;
      }
      r := r.(sleeps := r.sleeps + [schedule[i]]);
      assert schedule[..i + 1] == schedule[..i] + [schedule[i]];
      i := i + 1;
    }
  }

  // ---------------------------------------------------------------------
  // What the two loops promise
  // ---------------------------------------------------------------------

  function Sum(s: seq<nat>): nat
  {
    if s == [] then 0 else s[0] + Sum(s[1..])
  }

  /**
   * Both loops make at most one call per schedule entry: three in all for
   * backoffSchedule, not three more after a first one.
   */
  lemma AtMostOneCallPerEntry(schedule: seq<nat>, requestErr: Option<Error>, answer: nat -> Exchange)
    ensures GetRetry(schedule, answer).calls <= |schedule|
    ensures PostRetry(schedule, requestErr, answer).calls <= |schedule|
    ensures GetRetry(BackoffSchedule, answer).calls <= 3
  {
  }

  /**
   * The loops stop at the first call without a transport error: every
   * earlier call failed, and its response is the one handed back.
   */
  lemma StopsAtFirstCompleted(schedule: seq<nat>, answer: nat -> Exchange, k: nat)
    requires k < |schedule| && answer(k).Completed?
    requires forall j :: 0 <= j < k ==> answer(j).TransportFailure?
    ensures GetRetry(schedule, answer) == Attempts(Some(answer(k).response), None, k + 1, schedule[..k])
    ensures PostRetry(schedule, None, answer) == GetRetry(schedule, answer)
  {
    var f := FirstCompleted(answer, |schedule|);
    assert f == k;
  }

  /**
   * The GET loop reports success exactly when some call within the
   * schedule completes (or the schedule is empty and nothing was tried).
   */
  lemma GetSucceedsIffSomeCallCompletes(schedule: seq<nat>, answer: nat -> Exchange)
    ensures GetRetry(schedule, answer).err.None? <==>
            (|schedule| == 0 || exists j :: 0 <= j < |schedule| && answer(j).Completed?)
  {
    var k := FirstCompleted(answer, |schedule|);
    if k == |schedule| && |schedule| > 0 {
      assert ErrorOf(answer(|schedule| - 1)).Some?;
    }
  }

  /**
   * A sleep follows every failed call, the last one included, and only
   * failed calls: the sleeps taken are the first entries of the schedule,
   * one for each call but a final completed one.
   */
  predicate SleepsAfterFailures(schedule: seq<nat>, answer: nat -> Exchange, r: Attempts)
  {
    && |r.sleeps| <= |schedule| && r.sleeps == schedule[..|r.sleeps|]
    && (forall j :: 0 <= j < |r.sleeps| ==> answer(j).TransportFailure?)
    && (|r.sleeps| == r.calls || (|r.sleeps| + 1 == r.calls && answer(|r.sleeps|).Completed?))
  }

  lemma SleepsFollowFailures(schedule: seq<nat>, requestErr: Option<Error>, answer: nat -> Exchange)
    ensures SleepsAfterFailures(schedule, answer, GetRetry(schedule, answer))
    ensures SleepsAfterFailures(schedule, answer, PostRetry(schedule, requestErr, answer))
  {
  }

  /** When every call fails, the GET loop returns the last call's error and response. */
  lemma GetReturnsLastError(schedule: seq<nat>, answer: nat -> Exchange)
    requires |schedule| > 0
    requires forall j :: 0 <= j < |schedule| ==> answer(j).TransportFailure?
    ensures var g := GetRetry(schedule, answer);
            g.err == Some(answer(|schedule| - 1).err) && g.res == answer(|schedule| - 1).res &&
            g.calls == |schedule| && g.sleeps == schedule
  {
    var k := FirstCompleted(answer, |schedule|);
    assert k == |schedule|;
  }

  /**
   * The POST loop's shadowed `err`: when every call fails it returns a nil
   * error, where the GET loop returns the last call's error; all else agrees.
   */
  lemma PostHidesExhaustion(schedule: seq<nat>, answer: nat -> Exchange)
    requires |schedule| > 0
    requires forall j :: 0 <= j < |schedule| ==> answer(j).TransportFailure?
    ensures PostRetry(schedule, None, answer).err.None?
    ensures GetRetry(schedule, answer).err.Some?
    ensures PostRetry(schedule, None, answer) == GetRetry(schedule, answer).(err := None)
  {
    GetReturnsLastError(schedule, answer);
  }

  /** The POST loop reports an error only when the request could not be built. */
  lemma PostErrorIsRequestError(schedule: seq<nat>, requestErr: Option<Error>, answer: nat -> Exchange)
    ensures PostRetry(schedule, requestErr, answer).err.Some? <==> |schedule| > 0 && requestErr.Some?
    ensures PostRetry(schedule, requestErr, answer).err.Some? ==>
            PostRetry(schedule, requestErr, answer) == Attempts(None, requestErr, 0, [])
  {
  }

  /** With backoffSchedule, a run of failures costs three calls and six seconds of sleep. */
  lemma ExhaustedBackoff(answer: nat -> Exchange)
    requires forall j :: 0 <= j < 3 ==> answer(j).TransportFailure?
    ensures GetRetry(BackoffSchedule, answer).calls == 3
    ensures Sum(GetRetry(BackoffSchedule, answer).sleeps) == 6000
    ensures Sum(PostRetry(BackoffSchedule, None, answer).sleeps) == 6000
    ensures PostRetry(BackoffSchedule, None, answer).calls == 3
  {
    GetReturnsLastError(BackoffSchedule, answer);
    assert Sum(BackoffSchedule) == 1000 + Sum([2000, 3000]);
    assert Sum([2000, 3000]) == 2000 + Sum([3000]);
  }
}
