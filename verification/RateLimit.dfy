/** The fixed-window rate limiter. The same algorithm guards the client
    (`checkRateLimit` with per-call limits) and both serverless functions
    (with fixed limits): a table from key to `{count, resetTime}`; a call
    opens a new window when there is no record or the old window has passed,
    is denied when the window is full, and otherwise counts one more request.
    The clock is a parameter. */
module RateLimit {

  datatype RateRecord = RateRecord(count: int, resetTime: int)

  datatype Verdict = Allowed | Denied(retryAfter: int)

  datatype StepResult = StepResult(verdict: Verdict, store: map<string, RateRecord>)

  /** The client's default limits: 10 requests per 60 seconds. */
  const DefaultMaxRequests := 10
  const DefaultWindowMs := 60000

  /** `Math.ceil(d / 1000)` for a non-negative number of milliseconds. */
  function CeilSeconds(d: int): (r: int)
    requires d >= 0
    ensures r >= 0 && 1000 * (r - 1) < d <= 1000 * r
  {
    (d + 999) / 1000
  }

  /** The window of a record is over: `now > record.resetTime`. At
      `now == resetTime` the old window still applies. */
  predicate Expired(record: RateRecord, now: int)
  {
    now > record.resetTime
  }

  /** One call of `checkRateLimit(key)` at time `now`, on the table `store`. */
  function Step(store: map<string, RateRecord>, key: string, maxRequests: int, windowMs: int, now: int): (r: StepResult)
    ensures key in r.store
    // records for other keys are never touched
    ensures forall k :: k != key ==> (k in r.store <==> k in store)
    ensures forall k :: k != key && k in store ==> r.store[k] == store[k]
    // no record, or an expired one: a fresh window that counts this call
    ensures key !in store || Expired(store[key], now) ==>
      r.verdict == Allowed && r.store[key] == RateRecord(1, now + windowMs)
    // a live window: denial leaves the table alone and says how long to wait;
    // admission counts exactly one more request in the same window
    ensures key in store && !Expired(store[key], now) ==>
      && (r.verdict.Denied? <==> store[key].count >= maxRequests)
      && (r.verdict.Denied? ==>
            && r.store == store && r.verdict.retryAfter >= 0
            && 1000 * (r.verdict.retryAfter - 1) < store[key].resetTime - now <= 1000 * r.verdict.retryAfter)
      && (r.verdict.Allowed? ==> r.store[key] == RateRecord(store[key].count + 1, store[key].resetTime))
  {
    if key !in store || Expired(store[key], now) then
      StepResult(Allowed, store[key := RateRecord(1, now + windowMs)])
    else if store[key].count >= maxRequests then
      StepResult(Denied(CeilSeconds(store[key].resetTime - now)), store)
    else
      StepResult(Allowed, store[key := store[key].(count := store[key].count + 1)])
  }

  /** The table after the periodic sweep: exactly the records whose window
      has not passed. */
  function Swept(store: map<string, RateRecord>, now: int): (r: map<string, RateRecord>)
    ensures forall k :: k in r <==> k in store && !Expired(store[k], now)
    ensures forall k :: k in r ==> r[k] == store[k]
  {
    map k | k in store && !Expired(store[k], now) :: store[k]
  }

  /** A per-process limiter: the module-level `Map` of the source. */
  class RateLimiter {
    var store: map<string, RateRecord>

    constructor ()
      ensures store == map[]
    {
      store := map[];
    }

    /** `checkRateLimit(key, maxRequests, windowMs)` at time `now`. */
    method Check(key: string, maxRequests: int, windowMs: int, now: int) returns (verdict: Verdict)
      modifies this
      ensures verdict == Step(old(store), key, maxRequests, windowMs, now).verdict
      ensures store == Step(old(store), key, maxRequests, windowMs, now).store
    {
      if key !in store || now > store[key].resetTime {
        store := store[key := RateRecord(1, now + windowMs)];
        return Allowed;
      }
      var record := store[key];
      if record.count >= maxRequests {
        return Denied(CeilSeconds(record.resetTime - now));
      }
      store := store[key := record.(count := record.count + 1)];
      return Allowed;
    }

    /** The body of the periodic cleanup: visit every entry and delete the
        ones whose window has passed. */
    method SweepExpired(now: int)
      modifies this
      ensures store == Swept(old(store), now)
    {
      var pending := store.Keys;
      while pending != {}
        invariant pending <= old(store).Keys
        invariant store == map k | k in old(store) && (k in pending || !Expired(old(store)[k], now)) :: old(store)[k]
        decreases pending
      {
        var key :| key in pending;
        if now > store[key].resetTime {
          store := store - {key};
        }
        pending := pending - {key};
      }
    }
  }

  /** Consecutive calls for one key at the times `times`, with fixed limits. */
  datatype RunResult = RunResult(verdicts: seq<Verdict>, store: map<string, RateRecord>)

  function Run(store: map<string, RateRecord>, key: string, maxRequests: int, windowMs: int, times: seq<int>): (r: RunResult)
    ensures |r.verdicts| == |times|
    ensures key in store || |times| > 0 ==> key in r.store
    decreases |times|
  {
    if times == [] then RunResult([], store)
    else
      var first := Step(store, key, maxRequests, windowMs, times[0]);
      var rest := Run(first.store, key, maxRequests, windowMs, times[1..]);
      RunResult([first.verdict] + rest.verdicts, rest.store)
  }

  /** Inside a live window that started with `count` requests, call `i` is
      admitted exactly when `count + i < maxRequests`; a denied call before
      the reset time is told to wait at least one second. */
  lemma {:induction false} RunInsideWindow(store: map<string, RateRecord>, key: string, maxRequests: int, windowMs: int, times: seq<int>)
    requires key in store
    requires forall i :: 0 <= i < |times| ==> times[i] <= store[key].resetTime
    ensures var r := Run(store, key, maxRequests, windowMs, times);
      forall i :: 0 <= i < |times| ==>
        && (r.verdicts[i].Allowed? <==> store[key].count + i < maxRequests)
        && (r.verdicts[i].Denied? && times[i] < store[key].resetTime ==> r.verdicts[i].retryAfter > 0)
    decreases |times|
  {
    if times != [] {
      var first := Step(store, key, maxRequests, windowMs, times[0]);
      var r := Run(store, key, maxRequests, windowMs, times);
      var rest := Run(first.store, key, maxRequests, windowMs, times[1..]);
      assert first.store[key].resetTime == store[key].resetTime;
      RunInsideWindow(first.store, key, maxRequests, windowMs, times[1..]);
      forall i | 1 <= i < |times|
        ensures r.verdicts[i] == rest.verdicts[i - 1]
        ensures r.verdicts[i].Allowed? <==> store[key].count + i < maxRequests
      {
        if store[key].count < maxRequests {
          assert first.store[key].count == store[key].count + 1;
        } else {
          assert first.store == store;
        }
      }
    }
  }

  /** With a limit of at least one, a key that has no live window admits
      exactly `maxRequests` consecutive calls made before the window started
      by the first of them ends; every later one is denied, with a positive
      `retryAfter` while the window has not reached its reset time. */
  lemma WindowAdmitsExactlyMax(store: map<string, RateRecord>, key: string, maxRequests: int, windowMs: int, times: seq<int>)
    requires maxRequests >= 1 && |times| > 0
    requires key !in store || Expired(store[key], times[0])
    requires forall i :: 0 <= i < |times| ==> times[i] <= times[0] + windowMs
    ensures var r := Run(store, key, maxRequests, windowMs, times);
      forall i :: 0 <= i < |times| ==>
        && (r.verdicts[i].Allowed? <==> i < maxRequests)
        && (r.verdicts[i].Denied? && times[i] < times[0] + windowMs ==> r.verdicts[i].retryAfter > 0)
  {
    var first := Step(store, key, maxRequests, windowMs, times[0]);
    var r := Run(store, key, maxRequests, windowMs, times);
    var rest := Run(first.store, key, maxRequests, windowMs, times[1..]);
    RunInsideWindow(first.store, key, maxRequests, windowMs, times[1..]);
    forall i | 1 <= i < |times| ensures r.verdicts[i] == rest.verdicts[i - 1] {
    }
  }

  /** `checkRateLimit(key)` with its default limits: of the calls made within
      60 seconds of one that opens a window, exactly the first 10 pass. */
  lemma DefaultsAdmitTen(store: map<string, RateRecord>, key: string, times: seq<int>)
    requires |times| > 0 && (key !in store || Expired(store[key], times[0]))
    requires forall i :: 0 <= i < |times| ==> times[i] <= times[0] + DefaultWindowMs
    ensures var r := Run(store, key, DefaultMaxRequests, DefaultWindowMs, times);
      forall i :: 0 <= i < |times| ==> (r.verdicts[i].Allowed? <==> i < 10)
  {
    WindowAdmitsExactlyMax(store, key, DefaultMaxRequests, DefaultWindowMs, times);
  }

  /** Every record keeps `1 <= count <= maxRequests`. */
  ghost predicate Bounded(store: map<string, RateRecord>, maxRequests: int)
  {
    forall k :: k in store ==> 1 <= store[k].count <= maxRequests
  }

  /** The count never exceeds the limit: a call preserves the bound. */
  lemma StepKeepsBound(store: map<string, RateRecord>, key: string, maxRequests: int, windowMs: int, now: int)
    requires maxRequests >= 1 && Bounded(store, maxRequests)
    ensures Bounded(Step(store, key, maxRequests, windowMs, now).store, maxRequests)
  {
  }

  /** Keys are independent: a call for one key does not change the verdict
      of a later call for another. */
  lemma KeysIndependent(store: map<string, RateRecord>, k1: string, k2: string, maxRequests: int, windowMs: int, t1: int, t2: int)
    requires k1 != k2
    ensures Step(Step(store, k1, maxRequests, windowMs, t1).store, k2, maxRequests, windowMs, t2).verdict
         == Step(store, k2, maxRequests, windowMs, t2).verdict
  {
    var s1 := Step(store, k1, maxRequests, windowMs, t1).store;
    assert k2 in s1 <==> k2 in store;
  }

  /** The sweep is invisible to later calls: a call at or after the sweep
      gets the same verdict and leaves the same record for its key. */
  lemma SweepKeepsVerdicts(store: map<string, RateRecord>, sweptAt: int, key: string, maxRequests: int, windowMs: int, now: int)
    requires sweptAt <= now
    ensures var a := Step(Swept(store, sweptAt), key, maxRequests, windowMs, now);
            var b := Step(store, key, maxRequests, windowMs, now);
            a.verdict == b.verdict && a.store[key] == b.store[key]
  {
  }

  /** The sweep keeps what it keeps unchanged and is idempotent. */
  lemma SweptIdempotent(store: map<string, RateRecord>, now: int)
    ensures Swept(Swept(store, now), now) == Swept(store, now)
  {
  }
}
