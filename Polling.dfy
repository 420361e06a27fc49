/**
 What the three polling loops have in common. Each loop looks at one
 `get_task` outcome per iteration and either returns a text, lets an
 exception escape, or sleeps and polls again; which of the three happens for a
 given outcome is the loop's own classification (a `PollAction`). The loop's
 result is then fixed by the first outcome that is not a retry.
 */
module Polling {

  /** What one iteration of a polling loop does with the outcome it fetched. */
  datatype PollAction =
    | Finish(text: string)        // return this text
    | Propagate(message: string)  // an exception with this message leaves the loop
    | Retry(delay: nat)           // sleep `delay` seconds and poll again

  /** The result of waiting: a value, an escaping exception (by its message), or
      Pending when the observed outcomes ran out before the loop decided (the
      real loop would call `get_task` again). */
  datatype Outcome<T> = Done(value: T) | Raised(message: string) | Pending

  /** A whole wait: its outcome, how many times `get_task` was called, and the
      sleeps taken, in order. */
  datatype WaitRun = WaitRun(outcome: Outcome<string>, calls: nat, delays: seq<nat>)

  /** The first `n` actions all poll again. */
  ghost predicate AllRetry(acts: seq<PollAction>, n: nat)
    requires n <= |acts|
  {
    forall j :: 0 <= j < n ==> acts[j].Retry?
  }

  /** The loop's result for a deciding action. */
  function Decide(a: PollAction): (o: Outcome<string>)
    requires !a.Retry?
    ensures a.Finish? ==> o == Done(a.text)
    ensures a.Propagate? ==> o == Raised(a.message)
  {
    match a
    case Finish(t) => Done(t)
    case Propagate(m) => Raised(m)
  }

  /** An outcome that is not a value, passed on unchanged to a caller whose
      result has another type. */
  function Relay<T>(o: Outcome<string>): (r: Outcome<T>)
    requires !o.Done?
    ensures o.Raised? ==> r == Raised(o.message)
    ensures o.Pending? ==> r.Pending?
  {
    if o.Raised? then Raised(o.message) else Pending
  }

  /** The sleeps taken by a run of retries. */
  function Delays(acts: seq<PollAction>): (d: seq<nat>)
    requires forall j :: 0 <= j < |acts| ==> acts[j].Retry?
    ensures |d| == |acts|
    ensures forall j :: 0 <= j < |acts| ==> d[j] == acts[j].delay
  {
    seq(|acts|, j requires 0 <= j < |acts| => acts[j].delay)
  }

  /** One more retry: the retries run one further, and so do their sleeps. */
  lemma RetryExtends(acts: seq<PollAction>, k: nat)
    requires k < |acts| && AllRetry(acts, k) && acts[k].Retry?
    ensures AllRetry(acts, k + 1)
    ensures Delays(acts[..k + 1]) == Delays(acts[..k]) + [acts[k].delay]
  {
    assert acts[..k + 1] == acts[..k] + [acts[k]];
  }

  /** A loop with no attempt limit: one call per action, a sleep for each
      retry, and the first action that is not a retry ends it. */
  function Settle(acts: seq<PollAction>): (r: WaitRun)
    ensures r.calls <= |acts|
    ensures r.outcome.Pending? <==> AllRetry(acts, |acts|)
    decreases |acts|
  {
    if acts == [] then WaitRun(Pending, 0, [])
    else if acts[0].Retry? then
      var r := Settle(acts[1..]);
      assert AllRetry(acts, |acts|) <==> AllRetry(acts[1..], |acts| - 1) by {
        assert forall j :: 1 <= j < |acts| ==> acts[j] == acts[1..][j - 1];
      }
      WaitRun(r.outcome, r.calls + 1, [acts[0].delay] + r.delays)
    else WaitRun(Decide(acts[0]), 1, [])
  }

  /** Retries up to index k and a deciding action at k: the loop makes k + 1
      calls, sleeps k times and returns what action k says. */
  lemma {:induction false} SettleDecidedAt(acts: seq<PollAction>, k: nat)
    requires k < |acts| && AllRetry(acts, k) && !acts[k].Retry?
    ensures Settle(acts) == WaitRun(Decide(acts[k]), k + 1, Delays(acts[..k]))
    decreases k
  {
    if k > 0 {
      assert acts[1..][k - 1] == acts[k];
      SettleDecidedAt(acts[1..], k - 1);
      assert Delays(acts[..k]) == [acts[0].delay] + Delays(acts[1..][..k - 1]);
    }
  }

  /** Only retries observed: the wait is still pending after |acts| calls. */
  lemma {:induction false} SettleUndecided(acts: seq<PollAction>)
    requires AllRetry(acts, |acts|)
    ensures Settle(acts) == WaitRun(Pending, |acts|, Delays(acts))
    decreases |acts|
  {
    if acts != [] {
      SettleUndecided(acts[1..]);
      assert Delays(acts) == [acts[0].delay] + Delays(acts[1..]);
    }
  }

  /** A loop that gives up with the exception `timeout` once `limit` polls
      have all asked to poll again. */
  function SettleWithin(acts: seq<PollAction>, limit: nat, timeout: string): (r: WaitRun)
    ensures r.calls <= limit && r.calls <= |acts|
    ensures |acts| >= limit ==> !r.outcome.Pending?
    decreases limit
  {
    if limit == 0 then WaitRun(Raised(timeout), 0, [])
    else if acts == [] then WaitRun(Pending, 0, [])
    else if acts[0].Retry? then
      var r := SettleWithin(acts[1..], limit - 1, timeout);
      WaitRun(r.outcome, r.calls + 1, [acts[0].delay] + r.delays)
    else WaitRun(Decide(acts[0]), 1, [])
  }

  /** Within the limit, the first deciding action decides, as without one. */
  lemma {:induction false} SettleWithinDecidedAt(acts: seq<PollAction>, limit: nat, timeout: string, k: nat)
    requires k < limit && k < |acts| && AllRetry(acts, k) && !acts[k].Retry?
    ensures SettleWithin(acts, limit, timeout) == WaitRun(Decide(acts[k]), k + 1, Delays(acts[..k]))
    decreases k
  {
    if k > 0 {
      assert acts[1..][k - 1] == acts[k];
      SettleWithinDecidedAt(acts[1..], limit - 1, timeout, k - 1);
      assert Delays(acts[..k]) == [acts[0].delay] + Delays(acts[1..][..k - 1]);
    }
  }

  /** `limit` retries in a row end the loop with the timeout after `limit`
      calls and `limit` sleeps. */
  lemma {:induction false} SettleWithinTimesOut(acts: seq<PollAction>, limit: nat, timeout: string)
    requires limit <= |acts| && AllRetry(acts, limit)
    ensures SettleWithin(acts, limit, timeout) == WaitRun(Raised(timeout), limit, Delays(acts[..limit]))
    decreases limit
  {
    if limit > 0 {
      SettleWithinTimesOut(acts[1..], limit - 1, timeout);
      assert Delays(acts[..limit]) == [acts[0].delay] + Delays(acts[1..][..limit - 1]);
    }
  }

  /** Fewer than `limit` outcomes observed, all retries: still pending. */
  lemma {:induction false} SettleWithinUndecided(acts: seq<PollAction>, limit: nat, timeout: string)
    requires |acts| < limit && AllRetry(acts, |acts|)
    ensures SettleWithin(acts, limit, timeout) == WaitRun(Pending, |acts|, Delays(acts))
    decreases |acts|
  {
    if acts != [] {
      SettleWithinUndecided(acts[1..], limit - 1, timeout);
      assert Delays(acts) == [acts[0].delay] + Delays(acts[1..]);
    }
  }

  /** The bounded loop is the unbounded one run on the first `limit` outcomes,
      except that where that one would still be pending after `limit` polls,
      the bounded one raises the timeout. */
  lemma {:induction false} SettleWithinIsWindowedSettle(acts: seq<PollAction>, limit: nat, timeout: string)
    ensures var window := if |acts| <= limit then acts else acts[..limit];
            var r := Settle(window);
            SettleWithin(acts, limit, timeout)
            == if r.outcome.Pending? && |acts| >= limit then r.(outcome := Raised(timeout)) else r
    decreases limit
  {
    if limit > 0 && acts != [] && acts[0].Retry? {
      SettleWithinIsWindowedSettle(acts[1..], limit - 1, timeout);
      var window := if |acts| <= limit then acts else acts[..limit];
      assert window[1..] == if |acts[1..]| <= limit - 1 then acts[1..] else acts[1..][..limit - 1];
    }
  }

  /** The three ways a bounded loop ends: a deciding action at some k below the
      limit, a timeout after `limit` retries, or, the observed actions used up
      first, still pending. */
  lemma SettleWithinShape(acts: seq<PollAction>, limit: nat, timeout: string) returns (k: nat)
    ensures k <= limit && k <= |acts| && AllRetry(acts, k)
    ensures k < limit && k < |acts| ==>
              !acts[k].Retry?
              && SettleWithin(acts, limit, timeout) == WaitRun(Decide(acts[k]), k + 1, Delays(acts[..k]))
    ensures k == limit ==>
              SettleWithin(acts, limit, timeout) == WaitRun(Raised(timeout), limit, Delays(acts[..k]))
    ensures k < limit && k == |acts| ==>
              SettleWithin(acts, limit, timeout) == WaitRun(Pending, k, Delays(acts))
  {
    k := 0;
    while k < limit && k < |acts| && acts[k].Retry?
      invariant k <= limit && k <= |acts| && AllRetry(acts, k)
    {
      k := k + 1;
    }
    if k == limit {
      SettleWithinTimesOut(acts, limit, timeout);
    } else if k == |acts| {
      SettleWithinUndecided(acts, limit, timeout);
    } else {
      SettleWithinDecidedAt(acts, limit, timeout, k);
    }
  }
}
